/** Entities shared by the routing policies: drone and event identifiers,
    positions, packets, and the temporal-difference step all three learning
    policies apply to a single Q-value. */
module Common {

  datatype Option<T> = None | Some(value: T)

  /** A drone identifier; it is also an action (the drone chosen as relay). */
  type DroneId = nat

  /** A cell of the discretised area, as produced by the spatial discretiser. */
  type Cell = int

  /** Identifier of the event a packet belongs to; the key of every ledger. */
  type EventId = int

  datatype Coords = Coords(x: real, y: real)

  /** Drone speed; configured positive, so a distance can be divided by it. */
  type Speed = s: real | s > 0.0 witness 1.0

  /** Communication range of a drone; configured non-negative. */
  type Range = r: real | r >= 0.0 witness 0.0

  /** The part of a packet the routing policies read: its event and the
      drones it has already visited. */
  datatype Packet = Packet(eventId: EventId, hops: set<DroneId>)

  /** What a policy sees of a neighbouring drone (the drone half of an
      `opt_neighbors` pair): its identifier, live position and range. */
  datatype Peer = Peer(id: DroneId, coords: Coords, range: Range)

  function Ids(peers: seq<Peer>): (ids: seq<DroneId>)
    ensures |ids| == |peers|
    ensures forall i :: 0 <= i < |peers| ==> ids[i] == peers[i].id
  {
    if peers == [] then [] else [peers[0].id] + Ids(peers[1..])
  }

  function Abs(x: real): (r: real)
    ensures r >= 0.0 && (r == x || r == -x)
  {
    if x < 0.0 then -x else x
  }

  /** One temporal-difference step: move `q` towards `target` by the
      fraction `rate`, written as the sources write it. */
  function TdStep(q: real, rate: real, target: real): real
  {
    q + rate * (target - q)
  }

  /** The step leaves the distance to the target scaled by `1 - rate`:
      a rate in [0, 1] never moves a value away from its target, and a
      value already at the target is a fixed point. */
  lemma TdStepContracts(q: real, rate: real, target: real)
    ensures TdStep(q, rate, target) - target == (1.0 - rate) * (q - target)
    ensures 0.0 <= rate <= 1.0 ==>
      Abs(TdStep(q, rate, target) - target) <= Abs(q - target)
    ensures q == target ==> TdStep(q, rate, target) == target
  {
    if 0.0 <= rate <= 1.0 {
      ScaleShrinks(1.0 - rate, q - target);
    }
  }

  lemma ScaleShrinks(s: real, d: real)
    requires 0.0 <= s <= 1.0
    ensures Abs(s * d) <= Abs(d)
  {
    if d >= 0.0 {
      NonNegProduct(s, d);
      assert s * d <= d;
    } else {
      NonNegProduct(s, -d);
      assert s * (-d) <= -d;
    }
  }

  lemma NonNegProduct(a: real, b: real)
    requires a >= 0.0 && b >= 0.0
    ensures a * b >= 0.0
  {
  }

  // Facts of real arithmetic the solver needs to be pointed at.

  lemma DivAntitone(p: real, s1: real, s2: real)
    requires p >= 0.0 && 0.0 < s1 <= s2
    ensures p / s2 <= p / s1
  {
  }

  lemma DivAtLeastOne(p: real, s: real)
    requires 0.0 < s <= p
    ensures p / s >= 1.0
  {
  }

  lemma MulMonotone(a: real, b: real, f: real)
    requires a <= b && f >= 0.0
    ensures a * f <= b * f
  {
  }

  lemma RatioAtMostOne(e: real, m: real)
    requires 0.0 <= e <= m && m > 0.0
    ensures 0.0 <= e / m <= 1.0
  {
  }
}
