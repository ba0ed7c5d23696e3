/** Distance-Based Q-Learning. A drone learns, per state (its own id and
    the cell it is in), one Q-value per drone of the swarm (higher is
    better). Rows are created lazily with an optimistic value; the relay
    is chosen at random during a warm-up and by a distance-weighted
    epsilon-greedy policy afterwards; every decision is kept in a ledger
    until the packet's fate is known, and then one temporal-difference
    update is applied. */
module DistanceBasedQLearning {
  import opened Common

  /** Learning rate. */
  const Alpha: real := 0.3
  /** Discount factor. */
  const Gamma: real := 0.8
  /** Probability of exploring once the warm-up is over. */
  const Epsilon: real := 0.1
  /** Value every action starts with in a new row. */
  const OptimisticValue: real := 5.0

  // ---------------------------------------------------------------------
  // States

  /** The learning state: the drone and the cell it is in. */
  datatype State = State(id: DroneId, cell: Cell)

  /** `State.__hash__`: the hash of the id alone (a non-negative integer
      hashes to itself). */
  function StateHash(s: State): int
  {
    s.id
  }

  /** `State.__eq__`: two states are the same when id and cell agree, and
      equal states hash equally, as a dictionary key requires. */
  function SameState(s: State, t: State): (b: bool)
    ensures b <==> s.id == t.id && s.cell == t.cell
    ensures b ==> StateHash(s) == StateHash(t)
  {
    s == t
  }

  /** `successor_estimate`: the state at the next waypoint. The decision
      taken does not enter into it. */
  function SuccessorEstimate(s: State, nextCell: Cell): (succ: State)
    ensures succ.id == s.id && succ.cell == nextCell
    ensures SameState(succ, s) <==> nextCell == s.cell
  {
    s.(cell := nextCell)
  }

  // ---------------------------------------------------------------------
  // Rows of the Q-table and the decision counts

  type Row = map<DroneId, real>
  type QTable = map<State, Row>
  type Counts = map<State, map<DroneId, nat>>

  /** The row of a state seen for the first time. */
  function FreshRow(swarm: set<DroneId>): (row: Row)
    ensures row.Keys == swarm
    ensures forall d :: d in row ==> row[d] == OptimisticValue
  {
    map d | d in swarm :: OptimisticValue
  }

  /** Give `s` a fresh row unless it has one already. */
  function WithRow(q: QTable, s: State, swarm: set<DroneId>): (q': QTable)
    ensures q'.Keys == q.Keys + {s}
    ensures forall t :: t in q ==> q'[t] == q[t]
    ensures s !in q ==> q'[s] == FreshRow(swarm)
  {
    if s in q then q else q[s := FreshRow(swarm)]
  }

  /** How often `a` was decided in `s`. */
  function Times(c: Counts, s: State, a: DroneId): nat
  {
    if s in c && a in c[s] then c[s][a] else 0
  }

  /** Give `s` an empty tally unless it has one already. */
  function WithTally(c: Counts, s: State): (c': Counts)
    ensures c'.Keys == c.Keys + {s}
    ensures forall t: State, a: DroneId :: Times(c', t, a) == Times(c, t, a)
  {
    if s in c then c else c[s := map[]]
  }

  /** Count one more decision `a` in `s`; every other count stays. */
  function Tally(c: Counts, s: State, a: DroneId): (c': Counts)
    ensures c'.Keys == c.Keys + {s}
    ensures Times(c', s, a) == Times(c, s, a) + 1
    ensures forall t: State, b: DroneId :: (t, b) != (s, a) ==> Times(c', t, b) == Times(c, t, b)
  {
    var tally: map<DroneId, nat> :=
      if s !in c then map[a := 1]
      else if a in c[s] then c[s][a := c[s][a] + 1]
      else c[s][a := 1];
    c[s := tally]
  }

  /** The largest value of a row (`max` over its values). */
  function MaxValue(row: Row): (m: real)
    requires row != map[]
    ensures m in row.Values
    ensures forall d :: d in row ==> row[d] <= m
  {
    MaxExists(row.Values);
    var m :| m in row.Values && forall v :: v in row.Values ==> v <= m;
    assert forall d :: d in row ==> row[d] in row.Values;
    m
  }

  lemma {:induction false} MaxExists(vs: set<real>)
    requires vs != {}
    ensures exists m :: m in vs && forall v :: v in vs ==> v <= m
    decreases |vs|
  {
    SomeElement(vs);
    var x :| x in vs;
    var rest := vs - {x};
    if rest == {} {
      OnlyElementIsMax(vs, x);
    } else {
      MaxExists(rest);
      var m :| m in rest && forall v :: v in rest ==> v <= m;
      AddToMax(vs, x, m);
    }
  }

  lemma SomeElement(vs: set<real>)
    ensures vs != {} ==> exists x :: x in vs
  {
    if forall x :: x !in vs {
      assert vs == {};
    }
  }

  lemma OnlyElementIsMax(vs: set<real>, x: real)
    requires x in vs && vs - {x} == {}
    ensures forall v :: v in vs ==> v <= x
  {
    forall v | v in vs ensures v <= x {
      assert v !in vs - {x};
    }
  }

  lemma AddToMax(vs: set<real>, x: real, m: real)
    requires x in vs && m in vs - {x} && forall v :: v in vs - {x} ==> v <= m
    ensures exists t :: t in vs && forall v :: v in vs ==> v <= t
  {
    var top := if x <= m then m else x;
    forall v | v in vs ensures v <= top {
      if v != x {
        assert v in vs - {x};
      }
    }
  }

  // ---------------------------------------------------------------------
  // Reward

  /** `reward_function`: -2 for an expired packet, otherwise 2 plus the
      floor of 1000 / delay (true division, then floor). */
  function Reward(delay: int, outcome: int): (r: int)
    requires outcome != -1 ==> delay != 0
    ensures outcome == -1 ==> r == -2
    ensures outcome != -1 && delay > 0 ==> r >= 2
  {
    if outcome == -1 then -2 else 2 + (1000.0 / delay as real).Floor
  }

  /** For a positive delay the floor of the true quotient is the integer
      quotient: a delivery within 1000 steps earns at least 3, a later one
      exactly 2. */
  lemma RewardOfDelivery(delay: int, outcome: int)
    requires outcome != -1 && delay > 0
    ensures Reward(delay, outcome) == 2 + 1000 / delay
    ensures delay <= 1000 ==> Reward(delay, outcome) >= 3
    ensures delay > 1000 ==> Reward(delay, outcome) == 2
  {
    var q, r := 1000 / delay, 1000 % delay;
    var x := 1000.0 / delay as real;
    assert x * delay as real == 1000.0;
    QuotientBounds(1000, delay, q, r, x);
    FloorIs(x, q);
    if delay <= 1000 {
      assert q >= 1 by {
        if q <= 0 {
          assert q * delay <= 0 by { NonPositiveProduct(q, delay); }
        }
      }
    }
  }

  lemma NonPositiveProduct(a: int, b: int)
    requires a <= 0 && b > 0
    ensures a * b <= 0
  {
  }

  lemma QuotientBounds(n: int, d: int, q: int, r: int, x: real)
    requires d > 0 && n == q * d + r && 0 <= r < d
    requires x * d as real == n as real
    ensures q as real <= x < q as real + 1.0
  {
    var dr, qr, rr := d as real, q as real, r as real;
    CastProduct(q, d);
    assert n as real == qr * dr + rr;
    var e := x - qr;
    assert e * dr == rr;
    if e < 0.0 {
      NegativeProduct(e, dr);
    }
    if e >= 1.0 {
      MulMonotone(1.0, e, dr);
    }
  }

  lemma CastProduct(a: int, b: int)
    ensures (a * b) as real == a as real * b as real
  {
  }

  lemma NegativeProduct(a: real, b: real)
    requires a < 0.0 && b > 0.0
    ensures a * b < 0.0
  {
  }

  lemma FloorIs(x: real, q: int)
    requires q as real <= x < q as real + 1.0
    ensures x.Floor == q
  {
  }

  lemma FloorMonotone(x: real, y: real)
    requires x <= y
    ensures x.Floor <= y.Floor
  {
    assert x.Floor as real <= x <= y < y.Floor as real + 1.0;
  }

  /** A later delivery never earns more. */
  lemma RewardAntitone(d1: int, d2: int, outcome: int)
    requires outcome != -1 && 0 < d1 <= d2
    ensures Reward(d2, outcome) <= Reward(d1, outcome)
  {
    DivAntitone(1000.0, d1 as real, d2 as real);
    FloorMonotone(1000.0 / d2 as real, 1000.0 / d1 as real);
  }

  // ---------------------------------------------------------------------
  // Policies

  /** A neighbour that can reach the depot by itself. */
  predicate Near(n: Peer, depot: Coords, dist: (Coords, Coords) -> real)
  {
    dist(n.coords, depot) <= n.range
  }

  /** A Q-value weighted by the inverse of the distance to the depot in
      hundreds of metres. */
  function Weight(distance: real, q: real): real
    requires distance > 0.0
  {
    (1.0 / (distance / 100.0)) * q
  }

  function WeightOf(n: Peer, row: Row, depot: Coords, dist: (Coords, Coords) -> real): real
    requires !Near(n, depot, dist) && n.id in row
  {
    Weight(dist(n.coords, depot), row[n.id])
  }

  predicate InRow(ns: seq<Peer>, row: Row)
  {
    forall i :: 0 <= i < |ns| ==> ns[i].id in row
  }

  /** Where the scan of `distance_greedy_policy` stands: it has returned a
      neighbour near the depot, or it holds the running best and its
      weight (`None` is the initial `-inf`). */
  datatype Scan = Found(relay: DroneId) | Running(best: Option<DroneId>, top: Option<real>)

  /** The scan of `distance_greedy_policy` over the neighbours in order. */
  function ScanFrom(ns: seq<Peer>, row: Row, depot: Coords, dist: (Coords, Coords) -> real): Scan
    requires InRow(ns, row)
    decreases |ns|
  {
    if ns == [] then Running(None, None)
    else
      var s := ScanFrom(ns[..|ns| - 1], row, depot, dist);
      var n := ns[|ns| - 1];
      if s.Found? then s
      else if Near(n, depot, dist) then Found(n.id)
      else
        var w := WeightOf(n, row, depot, dist);
        if s.top.None? || w > s.top.value then Running(Some(n.id), Some(w)) else s
  }

  /** The relay the scan returns. */
  function ScanResult(s: Scan): Option<DroneId>
  {
    if s.Found? then Some(s.relay) else s.best
  }

  /** Once the scan has returned, the rest of the list is not looked at. */
  lemma {:induction false} ScanStops(ns: seq<Peer>, m: nat, row: Row, depot: Coords, dist: (Coords, Coords) -> real)
    requires InRow(ns, row) && m <= |ns|
    requires ScanFrom(ns[..m], row, depot, dist).Found?
    ensures ScanFrom(ns, row, depot, dist) == ScanFrom(ns[..m], row, depot, dist)
    decreases |ns| - m
  {
    if m < |ns| {
      assert ns[..|ns| - 1][..m] == ns[..m];
      ScanStops(ns[..|ns| - 1], m, row, depot, dist);
    } else {
      assert ns[..m] == ns;
    }
  }

  /** The greedy policy returns the first neighbour near the depot. */
  lemma {:induction false} GreedyReturnsFirstNear(ns: seq<Peer>, i: nat, row: Row, depot: Coords,
                                                  dist: (Coords, Coords) -> real)
    requires InRow(ns, row) && i < |ns|
    requires Near(ns[i], depot, dist) && forall j :: 0 <= j < i ==> !Near(ns[j], depot, dist)
    ensures ScanFrom(ns, row, depot, dist) == Found(ns[i].id)
  {
    NoNearRuns(ns[..i], row, depot, dist);
    assert ns[..i + 1][..i] == ns[..i];
    ScanStops(ns, i + 1, row, depot, dist);
  }

  /** Without neighbours near the depot the scan never returns early. */
  lemma {:induction false} NoNearRuns(ns: seq<Peer>, row: Row, depot: Coords, dist: (Coords, Coords) -> real)
    requires InRow(ns, row)
    requires forall j :: 0 <= j < |ns| ==> !Near(ns[j], depot, dist)
    ensures ScanFrom(ns, row, depot, dist).Running?
    decreases |ns|
  {
    if ns != [] {
      NoNearRuns(ns[..|ns| - 1], row, depot, dist);
    }
  }

  /** If the scan returned early, it returned a neighbour near the depot. */
  lemma {:induction false} FoundIsNear(ns: seq<Peer>, row: Row, depot: Coords, dist: (Coords, Coords) -> real)
    requires InRow(ns, row)
    requires ScanFrom(ns, row, depot, dist).Found?
    ensures exists i :: 0 <= i < |ns| && Near(ns[i], depot, dist) && ns[i].id == ScanFrom(ns, row, depot, dist).relay
    decreases |ns|
  {
    var init := ns[..|ns| - 1];
    if ScanFrom(init, row, depot, dist).Found? {
      FoundIsNear(init, row, depot, dist);
      var i :| 0 <= i < |init| && Near(init[i], depot, dist) && init[i].id == ScanFrom(init, row, depot, dist).relay;
      assert ns[i] == init[i];
    } else {
      assert Near(ns[|ns| - 1], depot, dist);
    }
  }

  /** `best` is the first neighbour whose weight is the largest. */
  ghost predicate IsFirstMaximum(ns: seq<Peer>, row: Row, depot: Coords, dist: (Coords, Coords) -> real,
                                 best: DroneId, top: real)
    requires InRow(ns, row)
    requires forall j :: 0 <= j < |ns| ==> !Near(ns[j], depot, dist)
  {
    exists i :: 0 <= i < |ns| && ns[i].id == best && WeightOf(ns[i], row, depot, dist) == top
      && (forall j :: 0 <= j < |ns| ==> WeightOf(ns[j], row, depot, dist) <= top)
      && (forall j :: 0 <= j < i ==> WeightOf(ns[j], row, depot, dist) < top)
  }

  /** With no neighbour near the depot, the greedy policy returns the first
      neighbour of largest weight (strict `>` against the running best). */
  lemma GreedyPicksFirstMaximum(ns: seq<Peer>, row: Row, depot: Coords, dist: (Coords, Coords) -> real)
    requires InRow(ns, row) && ns != []
    requires forall j :: 0 <= j < |ns| ==> !Near(ns[j], depot, dist)
    ensures var s := ScanFrom(ns, row, depot, dist);
      s.Running? && s.best.Some? && s.top.Some? && IsFirstMaximum(ns, row, depot, dist, s.best.value, s.top.value)
  {
    var i := FirstMaximumIndex(ns, row, depot, dist);
    assert 0 <= i < |ns| && ns[i].id == ns[i].id;
  }

  /** Where the first maximum of the greedy scan is. */
  lemma {:induction false} FirstMaximumIndex(ns: seq<Peer>, row: Row, depot: Coords, dist: (Coords, Coords) -> real)
    returns (i: nat)
    requires InRow(ns, row) && ns != []
    requires forall j :: 0 <= j < |ns| ==> !Near(ns[j], depot, dist)
    ensures i < |ns|
    ensures ScanFrom(ns, row, depot, dist) == Running(Some(ns[i].id), Some(WeightOf(ns[i], row, depot, dist)))
    ensures forall j :: 0 <= j < |ns| ==> WeightOf(ns[j], row, depot, dist) <= WeightOf(ns[i], row, depot, dist)
    ensures forall j :: 0 <= j < i ==> WeightOf(ns[j], row, depot, dist) < WeightOf(ns[i], row, depot, dist)
    decreases |ns|
  {
    var init := ns[..|ns| - 1];
    if init == [] {
      i := 0;
    } else {
      var k := FirstMaximumIndex(init, row, depot, dist);
      assert forall j :: 0 <= j < |init| ==> init[j] == ns[j];
      if WeightOf(ns[|ns| - 1], row, depot, dist) > WeightOf(ns[k], row, depot, dist) {
        i := |ns| - 1;
      } else {
        i := k;
      }
    }
  }

  /** The greedy policy returns a neighbour, and returns one whenever there is
      a neighbour at all. */
  lemma {:induction false} GreedyReturnsNeighbor(ns: seq<Peer>, row: Row, depot: Coords,
                                                 dist: (Coords, Coords) -> real)
    requires InRow(ns, row)
    ensures var r := ScanResult(ScanFrom(ns, row, depot, dist));
      (r.Some? <==> ns != []) && (r.Some? ==> r.value in Ids(ns))
    decreases |ns|
  {
    if ns != [] {
      var init := ns[..|ns| - 1];
      GreedyReturnsNeighbor(init, row, depot, dist);
      var r := ScanResult(ScanFrom(init, row, depot, dist));
      if r.Some? {
        var k :| 0 <= k < |init| && Ids(init)[k] == r.value;
        assert Ids(ns)[k] == r.value;
      }
      assert Ids(ns)[|ns| - 1] == ns[|ns| - 1].id;
    }
  }

  /** The pick `choice(neighbors + [None])` makes for the drawn index. */
  function Choice(ns: seq<Peer>, pick: nat): (a: Option<DroneId>)
    requires pick <= |ns|
    ensures a == None <==> pick == |ns|
    ensures a.Some? ==> a.value in Ids(ns) && a.value == Ids(ns)[pick]
  {
    if pick < |ns| then Some(ns[pick].id) else None
  }

  /** What `distance_based_epsilon_greedy` returns: nothing when there is no
      neighbour or the drone reaches the depot itself, the greedy choice for
      a draw `p <= 1 - Epsilon`, a random pick otherwise. */
  function EpsilonGreedyChoice(ns: seq<Peer>, row: Row, selfNear: bool, p: real, pick: nat, depot: Coords,
                               dist: (Coords, Coords) -> real): (a: Option<DroneId>)
    requires InRow(ns, row) && pick <= |ns|
    ensures ns == [] || selfNear ==> a == None
    ensures a.Some? ==> a.value in Ids(ns)
  {
    if ns == [] || selfNear then None
    else if p <= 1.0 - Epsilon then
      GreedyReturnsNeighbor(ns, row, depot, dist);
      ScanResult(ScanFrom(ns, row, depot, dist))
    else Choice(ns, pick)
  }

  /** `None` stands for "keep the packet", recorded as the drone itself. */
  function Resolve(a: Option<DroneId>, self: DroneId): DroneId
  {
    if a.None? then self else a.value
  }

  /** A recorded decision: the state, the relay, the estimated next state. */
  datatype Decision = Decision(state: State, action: DroneId, successor: State)

  // ---------------------------------------------------------------------
  // Warm-up

  /** How many of the next `calls` relay selections use the random policy,
      starting from exploration counter `c`: a warm-up call increments the
      counter by one, and no call ever decreases it. */
  function WarmUpCalls(c: nat, nDrones: nat, calls: nat): nat
    decreases calls
  {
    if calls == 0 || c > nDrones then 0 else 1 + WarmUpCalls(c + 1, nDrones, calls - 1)
  }

  /** A fresh agent (counter 0) makes exactly `nDrones + 1` warm-up picks,
      or all of its calls if it makes fewer. */
  lemma {:induction false} WarmUpLength(c: nat, nDrones: nat, calls: nat)
    requires c <= nDrones + 1
    ensures WarmUpCalls(c, nDrones, calls) == if calls <= nDrones + 1 - c then calls else nDrones + 1 - c
    decreases calls
  {
    if calls > 0 && c <= nDrones {
      WarmUpLength(c + 1, nDrones, calls - 1);
    }
  }

  // ---------------------------------------------------------------------
  // The routing object

  class DistanceBasedQLearningRouting {
    const drone: DroneId
    /** The drones of the simulation, this one included. */
    const swarm: set<DroneId>
    const nDrones: nat
    const depot: Coords
    const range: Range

    /** Ledger: event id -> the decision taken for it. */
    var takenActions: map<EventId, Decision>
    var qTable: QTable
    /** How often each action was decided in each state. */
    var stateActions: Counts
    /** Random choices made. */
    var explorationCounter: nat
    /** Greedy scans that ran to the end. */
    var exploitationCounter: nat
    var qUpdates: nat

    /** Every row has a value for every drone, and every recorded decision
        refers to rows and drones that exist, so the feedback lookups
        succeed. */
    ghost predicate Valid()
      reads this
    {
      && drone in swarm
      && (forall s :: s in qTable ==> qTable[s].Keys == swarm)
      && (forall e :: e in takenActions ==>
            takenActions[e].state in qTable && takenActions[e].successor in qTable
            && takenActions[e].action in swarm)
    }

    constructor (drone: DroneId, swarm: set<DroneId>, nDrones: nat, depot: Coords, range: Range)
      requires drone in swarm
      ensures Valid()
      ensures this.drone == drone && this.swarm == swarm && this.nDrones == nDrones
      ensures this.depot == depot && this.range == range
      ensures takenActions == map[] && qTable == map[] && stateActions == map[]
      ensures explorationCounter == 0 && exploitationCounter == 0 && qUpdates == 0
    {
      this.drone := drone;
      this.swarm := swarm;
      this.nDrones := nDrones;
      this.depot := depot;
      this.range := range;
      takenActions := map[];
      qTable := map[];
      stateActions := map[];
      explorationCounter, exploitationCounter, qUpdates := 0, 0, 0;
    }

    /** `feedback`: one temporal-difference step on the recorded state and
        action towards the reward plus the discounted best value of the
        successor row; the entry is then consumed. */
    method Feedback(idEvent: EventId, delay: int, outcome: int)
      requires Valid()
      requires idEvent in takenActions && outcome != -1 ==> delay != 0
      modifies this`qTable, this`qUpdates, this`takenActions
      ensures Valid()
      ensures takenActions == old(takenActions) - {idEvent}
      ensures idEvent !in old(takenActions) ==> qTable == old(qTable) && qUpdates == old(qUpdates)
      ensures idEvent in old(takenActions) ==>
        var d := old(takenActions)[idEvent];
        var row := old(qTable)[d.state];
        var target := Reward(delay, outcome) as real + Gamma * MaxValue(old(qTable)[d.successor]);
        var updated: Row := row[d.action := TdStep(row[d.action], Alpha, target)];
        && qUpdates == old(qUpdates) + 1
        && qTable == old(qTable)[d.state := updated]
    {
      if idEvent in takenActions {
        var d := takenActions[idEvent];
        var reward := Reward(delay, outcome) as real;
        var maxNext := MaxValue(qTable[d.successor]);
        var row: Row := qTable[d.state];
        row := row[d.action := row[d.action] + Alpha * (reward + Gamma * maxNext - row[d.action])];
        qTable := qTable[d.state := row];
        qUpdates := qUpdates + 1;
        takenActions := takenActions - {idEvent};
      }
    }

    /** `random_policy`: draw among the neighbours and `None`. */
    method RandomPolicy(neighbors: seq<Peer>, pick: nat) returns (a: Option<DroneId>)
      requires pick <= |neighbors|
      modifies this`explorationCounter
      ensures explorationCounter == old(explorationCounter) + 1
      ensures a == Choice(neighbors, pick)
    {
      explorationCounter := explorationCounter + 1;
      a := if pick < |neighbors| then Some(neighbors[pick].id) else None;
    }

    /** `distance_greedy_policy`: the first neighbour near the depot, or the
        first of largest distance-weighted Q-value; only a scan that runs to
        the end counts as an exploitation. */
    method DistanceGreedyPolicy(state: State, neighbors: seq<Peer>, dist: (Coords, Coords) -> real)
      returns (a: Option<DroneId>)
      requires state in qTable && InRow(neighbors, qTable[state])
      modifies this`exploitationCounter
      ensures var s := ScanFrom(neighbors, qTable[state], depot, dist);
        && a == ScanResult(s)
        && exploitationCounter == old(exploitationCounter) + (if s.Found? then 0 else 1)
    {
      var row := qTable[state];
      var top: Option<real> := None;
      var best: Option<DroneId> := None;
      var i := 0;
      while i < |neighbors|
        invariant 0 <= i <= |neighbors|
        invariant ScanFrom(neighbors[..i], row, depot, dist) == Running(best, top)
      {
        assert neighbors[..i + 1][..i] == neighbors[..i];
        var n := neighbors[i];
        var d := dist(n.coords, depot);
        if d <= n.range {
          ScanStops(neighbors, i + 1, row, depot, dist);
          return Some(n.id);
        }
        var w := Weight(d, row[n.id]);
        if top.None? || w > top.value {
          top := Some(w);
          best := Some(n.id);
        }
        i := i + 1;
      }
      assert neighbors[..i] == neighbors;
      exploitationCounter := exploitationCounter + 1;
      a := best;
    }

    /** `distance_based_epsilon_greedy`; `selfCoords` is the drone's position
        and `p` the uniform draw. */
    method EpsilonGreedy(state: State, neighbors: seq<Peer>, selfCoords: Coords, p: real, pick: nat,
                         dist: (Coords, Coords) -> real) returns (a: Option<DroneId>)
      requires state in qTable && InRow(neighbors, qTable[state]) && pick <= |neighbors|
      modifies this`exploitationCounter, this`explorationCounter
      ensures a == EpsilonGreedyChoice(neighbors, qTable[state], dist(selfCoords, depot) <= range, p, pick, depot, dist)
      ensures (neighbors == [] || dist(selfCoords, depot) <= range) ==>
        explorationCounter == old(explorationCounter) && exploitationCounter == old(exploitationCounter)
      ensures neighbors != [] && dist(selfCoords, depot) > range && p <= 1.0 - Epsilon ==>
        explorationCounter == old(explorationCounter)
        && exploitationCounter == old(exploitationCounter)
             + (if ScanFrom(neighbors, qTable[state], depot, dist).Found? then 0 else 1)
      ensures neighbors != [] && dist(selfCoords, depot) > range && p > 1.0 - Epsilon ==>
        explorationCounter == old(explorationCounter) + 1 && exploitationCounter == old(exploitationCounter)
    {
      if |neighbors| == 0 || dist(selfCoords, depot) <= range {
        return None;
      }
      if p <= 1.0 - Epsilon {
        a := DistanceGreedyPolicy(state, neighbors, dist);
        return;
      }
      a := RandomPolicy(neighbors, pick);
    }

    /** `relay_selection`. `toCell` is the spatial discretiser, `selfCoords`
        the drone's position and `nextTarget` its next waypoint; `p` and
        `pick` are the random draws. */
    method RelaySelection(neighbors: seq<Peer>, packet: Packet, selfCoords: Coords, nextTarget: Coords,
                          toCell: Coords -> Cell, p: real, pick: nat, dist: (Coords, Coords) -> real)
      returns (action: DroneId)
      requires Valid()
      requires forall i :: 0 <= i < |neighbors| ==> neighbors[i].id in swarm
      requires pick <= |neighbors|
      modifies this`qTable, this`stateActions, this`takenActions, this`explorationCounter, this`exploitationCounter
      ensures Valid()
      ensures var state := State(drone, toCell(selfCoords));
        var successor := SuccessorEstimate(state, toCell(nextTarget));
        && qTable == WithRow(WithRow(old(qTable), state, swarm), successor, swarm)
        && takenActions == old(takenActions)[packet.eventId := Decision(state, action, successor)]
        && stateActions == Tally(WithTally(old(stateActions), successor), state, action)
        && (old(explorationCounter) <= nDrones ==>
              action == Resolve(Choice(neighbors, pick), drone)
              && explorationCounter == old(explorationCounter) + 1
              && exploitationCounter == old(exploitationCounter))
        && (old(explorationCounter) > nDrones ==>
              action == Resolve(EpsilonGreedyChoice(neighbors, qTable[state], dist(selfCoords, depot) <= range,
                                                    p, pick, depot, dist), drone))
      ensures var state := State(drone, toCell(selfCoords));
        old(explorationCounter) > nDrones && (neighbors == [] || dist(selfCoords, depot) <= range) ==>
          explorationCounter == old(explorationCounter) && exploitationCounter == old(exploitationCounter)
      ensures var state := State(drone, toCell(selfCoords));
        old(explorationCounter) > nDrones && neighbors != [] && dist(selfCoords, depot) > range
        && p <= 1.0 - Epsilon ==>
          explorationCounter == old(explorationCounter)
          && exploitationCounter == old(exploitationCounter)
               + (if ScanFrom(neighbors, qTable[state], depot, dist).Found? then 0 else 1)
      ensures old(explorationCounter) > nDrones && neighbors != [] && dist(selfCoords, depot) > range
              && p > 1.0 - Epsilon ==>
        explorationCounter == old(explorationCounter) + 1 && exploitationCounter == old(exploitationCounter)
      ensures action == drone || action in Ids(neighbors)
      ensures explorationCounter >= old(explorationCounter)
    {
      var state := State(drone, toCell(selfCoords));
      var choice := Choose(state, neighbors, selfCoords, p, pick, dist);
      var successor := SuccessorEstimate(state, toCell(nextTarget));
      action := Record(packet.eventId, state, successor, choice);
    }

    /** The first half of `relay_selection`: make sure the current state has
        a row, then pick at random during the warm-up and epsilon-greedily
        afterwards. */
    method Choose(state: State, neighbors: seq<Peer>, selfCoords: Coords, p: real, pick: nat,
                  dist: (Coords, Coords) -> real) returns (choice: Option<DroneId>)
      requires Valid()
      requires forall i :: 0 <= i < |neighbors| ==> neighbors[i].id in swarm
      requires pick <= |neighbors|
      modifies this`qTable, this`explorationCounter, this`exploitationCounter
      ensures Valid()
      ensures qTable == WithRow(old(qTable), state, swarm)
      ensures old(explorationCounter) <= nDrones ==>
        choice == Choice(neighbors, pick)
        && explorationCounter == old(explorationCounter) + 1
        && exploitationCounter == old(exploitationCounter)
      ensures old(explorationCounter) > nDrones ==>
        choice == EpsilonGreedyChoice(neighbors, qTable[state], dist(selfCoords, depot) <= range, p, pick, depot, dist)
      ensures old(explorationCounter) > nDrones && (neighbors == [] || dist(selfCoords, depot) <= range) ==>
        explorationCounter == old(explorationCounter) && exploitationCounter == old(exploitationCounter)
      ensures old(explorationCounter) > nDrones && neighbors != [] && dist(selfCoords, depot) > range
              && p <= 1.0 - Epsilon ==>
        explorationCounter == old(explorationCounter)
        && exploitationCounter == old(exploitationCounter)
             + (if ScanFrom(neighbors, qTable[state], depot, dist).Found? then 0 else 1)
      ensures old(explorationCounter) > nDrones && neighbors != [] && dist(selfCoords, depot) > range
              && p > 1.0 - Epsilon ==>
        explorationCounter == old(explorationCounter) + 1 && exploitationCounter == old(exploitationCounter)
      ensures choice.Some? ==> choice.value in Ids(neighbors) && choice.value in swarm
      ensures explorationCounter >= old(explorationCounter)
    {
      AddRow(state);
      if explorationCounter <= nDrones {
        choice := RandomPolicy(neighbors, pick);
      } else {
        choice := EpsilonGreedy(state, neighbors, selfCoords, p, pick, dist);
      }
      if choice.Some? {
        var k :| 0 <= k < |neighbors| && Ids(neighbors)[k] == choice.value;
      }
    }

    /** The second half of `relay_selection`: make sure the successor state
        has a row and a tally, record the decision (`None` as the drone
        itself) and count it. */
    method Record(eventId: EventId, state: State, successor: State, choice: Option<DroneId>)
      returns (action: DroneId)
      requires Valid()
      requires state in qTable
      requires choice.Some? ==> choice.value in swarm
      modifies this`qTable, this`stateActions, this`takenActions
      ensures Valid()
      ensures qTable == WithRow(old(qTable), successor, swarm)
      ensures action == Resolve(choice, drone)
      ensures takenActions == old(takenActions)[eventId := Decision(state, action, successor)]
      ensures stateActions == Tally(WithTally(old(stateActions), successor), state, action)
    {
      AddRow(successor);
      OpenTally(successor);
      action := if choice == None then drone else choice.value;
      takenActions := takenActions[eventId := Decision(state, action, successor)];
      CountDecision(state, action);
    }

    /** A state seen for the first time gets an optimistic row. */
    method AddRow(s: State)
      requires Valid()
      modifies this`qTable
      ensures Valid()
      ensures qTable == WithRow(old(qTable), s, swarm)
    {
      if s !in qTable {
        qTable := qTable[s := map d | d in swarm :: OptimisticValue];
      }
    }

    /** A state seen for the first time as a successor gets an empty tally. */
    method OpenTally(s: State)
      modifies this`stateActions
      ensures stateActions == WithTally(old(stateActions), s)
    {
      if s !in stateActions {
        stateActions := stateActions[s := map[]];
      }
    }

    /** Count one more decision `action` in `state`. */
    method CountDecision(state: State, action: DroneId)
      modifies this`stateActions
      ensures stateActions == Tally(old(stateActions), state, action)
    {
      var tally: map<DroneId, nat>;
      if state !in stateActions {
        tally := map[action := 1];
      } else if action in stateActions[state] {
        tally := stateActions[state][action := stateActions[state][action] + 1];
      } else {
        tally := stateActions[state][action := 1];
      }
      stateActions := stateActions[state := tally];
    }
  }
}
