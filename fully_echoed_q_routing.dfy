/** Fully-Echoed Q-Routing. A drone keeps, per neighbour, a Q-value that
    estimates how long a packet takes to reach the depot through that
    neighbour (lower is better). Q-values are learnt from a four-message
    exchange (Hello / Data / ACK / Estimation) and relays are chosen by
    simulated annealing, whose temperature is scaled by the recent
    instability of the Q-values. */
module FullyEchoedQRouting {
  import opened Common
  import opened PyDicts

  /** A neighbour's beacon: sender, its position and speed, creation step. */
  datatype Hello = Hello(src: DroneId, pos: Coords, speed: Speed, created: int)

  /** A delivery-time estimate; `Infinite` is the `inf` a minimum over no
      neighbours evaluates to. */
  datatype Time = Finite(t: real) | Infinite

  /** The dynamic learning rate; `NaN` is what `inf / inf` evaluates to. */
  datatype Rate = Rate(value: real) | NaN

  datatype Message =
    | HelloMsg(hello: Hello)
    | DataMsg(timeOfForwarding: int, queueTime: int)
    | AckMsg(timeOfReception: int, timeOfForwarding: int, queueTime: int, estimate: Time)
    | EstimationMsg(estimate: Time, queueSeconds: real, transmissionSeconds: real)

  /** What a handler sends back: nothing, one message to one drone, or one
      message to a list of drones. */
  datatype Outgoing = Silent | Unicast(to: DroneId, msg: Message) | Broadcast(recipients: seq<DroneId>, msg: Message)

  /** Length of the history of Q-value changes. */
  const H: nat := 10
  /** Fixed learning rate of ACK updates. */
  const Eta: real := 0.8
  /** Scale of the dynamic learning rate of Estimation updates. */
  const EchoRate: real := 0.3
  /** Weight of the transmission time in an ACK update. */
  const TransmissionWeight: real := 3.0

  // ---------------------------------------------------------------------
  // Neighbours and the Q-vector

  function HelloIds(hs: seq<Hello>): (ids: seq<DroneId>)
    ensures |ids| == |hs|
    ensures forall i :: 0 <= i < |hs| ==> ids[i] == hs[i].src
  {
    if hs == [] then [] else [hs[0].src] + HelloIds(hs[1..])
  }

  /** First estimate for a neighbour never seen before: straight-line time
      from its beacon position to the depot. */
  function InitialQ(h: Hello, depot: Coords, dist: (Coords, Coords) -> real): real
  {
    dist(h.pos, depot) / h.speed
  }

  /** `check_new_neighbors`: every beacon whose sender has no Q-value gets one. */
  function AddNewNeighbors(q: map<DroneId, real>, hs: seq<Hello>, depot: Coords,
                           dist: (Coords, Coords) -> real): map<DroneId, real>
    decreases |hs|
  {
    if hs == [] then q
    else
      var q' := AddNewNeighbors(q, hs[..|hs| - 1], depot, dist);
      var h := hs[|hs| - 1];
      if h.src in q' then q' else q'[h.src := InitialQ(h, depot, dist)]
  }

  /** The drones that sent the listed beacons. */
  function Senders(hs: seq<Hello>): set<DroneId>
  {
    set i | 0 <= i < |hs| :: hs[i].src
  }

  /** Adding neighbours never changes a known Q-value, and the known drones
      become the old ones plus the beacon senders. */
  lemma {:induction false} AddNewNeighborsSpec(q: map<DroneId, real>, hs: seq<Hello>, depot: Coords,
                                               dist: (Coords, Coords) -> real)
    ensures AddNewNeighbors(q, hs, depot, dist).Keys == q.Keys + Senders(hs)
    ensures forall id :: id in q ==> AddNewNeighbors(q, hs, depot, dist)[id] == q[id]
    decreases |hs|
  {
    if hs != [] {
      var init := hs[..|hs| - 1];
      AddNewNeighborsSpec(q, init, depot, dist);
      assert Senders(hs) == Senders(init) + {hs[|hs| - 1].src} by {
        forall x | x in Senders(hs) ensures x in Senders(init) + {hs[|hs| - 1].src} {
          var i :| 0 <= i < |hs| && hs[i].src == x;
          if i < |hs| - 1 {
            assert init[i].src == x;
          }
        }
        forall x | x in Senders(init) ensures x in Senders(hs) {
          var i :| 0 <= i < |init| && init[i].src == x;
          assert hs[i].src == x;
        }
      }
    }
  }

  /** A drone without a Q-value gets its first one from its first beacon in
      the list. */
  lemma {:induction false} AddNewNeighborsFirstBeacon(q: map<DroneId, real>, hs: seq<Hello>, depot: Coords,
                                                      dist: (Coords, Coords) -> real, i: nat)
    requires i < |hs| && hs[i].src !in q
    requires forall j :: 0 <= j < i ==> hs[j].src != hs[i].src
    ensures hs[i].src in AddNewNeighbors(q, hs, depot, dist)
    ensures AddNewNeighbors(q, hs, depot, dist)[hs[i].src] == InitialQ(hs[i], depot, dist)
    decreases |hs|
  {
    var init := hs[..|hs| - 1];
    AddNewNeighborsSpec(q, init, depot, dist);
    if i < |hs| - 1 {
      AddNewNeighborsFirstBeacon(q, init, depot, dist, i);
    } else {
      assert hs[i].src !in Senders(init);
    }
  }

  /** The beacons younger than the cut-off, in the dictionary's order. */
  function FreshFrom(order: seq<DroneId>, entries: map<DroneId, Hello>, cutoff: int): (ns: seq<Hello>)
    requires forall i :: 0 <= i < |order| ==> order[i] in entries
    ensures forall i :: 0 <= i < |ns| ==> ns[i].created >= cutoff
    decreases |order|
  {
    if order == [] then []
    else
      var h := entries[order[|order| - 1]];
      FreshFrom(order[..|order| - 1], entries, cutoff) + (if h.created < cutoff then [] else [h])
  }

  /** `get_opt_neighbors`: beacons created at `cutoff` or later. */
  function FreshNeighbors(d: Dict<DroneId, Hello>, cutoff: int): seq<Hello>
    requires d.Valid()
  {
    FreshFrom(d.order, d.entries, cutoff)
  }

  /** A beacon is listed as an up-to-date neighbour exactly when it is the
      stored beacon of its sender and is not older than the cut-off. */
  lemma {:induction false} FreshFromMembers(order: seq<DroneId>, entries: map<DroneId, Hello>, cutoff: int)
    requires forall i :: 0 <= i < |order| ==> order[i] in entries
    requires forall id :: id in entries ==> entries[id].src == id
    ensures forall h :: h in FreshFrom(order, entries, cutoff) <==>
      h.src in order && entries[h.src] == h && h.created >= cutoff
    decreases |order|
  {
    if order != [] {
      var init := order[..|order| - 1];
      FreshFromMembers(init, entries, cutoff);
      assert order == init + [order[|order| - 1]];
      forall h ensures h in FreshFrom(order, entries, cutoff) <==>
        h.src in order && entries[h.src] == h && h.created >= cutoff
      {
        if h.src in order && h.src !in init {
          assert h.src == order[|order| - 1];
        }
      }
    }
  }

  // ---------------------------------------------------------------------
  // Minimum Q-value (estimate of the time to the depot)

  /** `e` is the smallest Q-value among `ids`, or `Infinite` for no ids. */
  ghost predicate IsMinimum(q: map<DroneId, real>, ids: seq<DroneId>, e: Time)
  {
    && (forall i :: 0 <= i < |ids| ==> ids[i] in q)
    && (e.Infinite? <==> ids == [])
    && (e.Finite? ==> (exists i :: 0 <= i < |ids| && q[ids[i]] == e.t)
                      && (forall i :: 0 <= i < |ids| ==> e.t <= q[ids[i]]))
  }

  /** `compute_estimate_time_to_depot`: running minimum from `inf`. */
  method EstimateTimeToDepot(q: map<DroneId, real>, ids: seq<DroneId>) returns (e: Time)
    requires forall i :: 0 <= i < |ids| ==> ids[i] in q
    ensures IsMinimum(q, ids, e)
  {
    e := Infinite;
    ghost var at := 0;
    var i := 0;
    while i < |ids|
      invariant 0 <= i <= |ids|
      invariant e.Infinite? <==> i == 0
      invariant e.Finite? ==> 0 <= at < i && q[ids[at]] == e.t
      invariant e.Finite? ==> forall j :: 0 <= j < i ==> e.t <= q[ids[j]]
    {
      if e.Infinite? || q[ids[i]] < e.t {
        e := Finite(q[ids[i]]);
        at := i;
      }
      i := i + 1;
    }
  }

  /** `a` is the first candidate with the smallest Q-value. */
  ghost predicate IsFirstMinimum(q: map<DroneId, real>, cands: seq<DroneId>, a: DroneId)
  {
    && (forall i :: 0 <= i < |cands| ==> cands[i] in q)
    && (exists j :: 0 <= j < |cands| && cands[j] == a
         && (forall i :: 0 <= i < |cands| ==> q[a] <= q[cands[i]])
         && (forall i :: 0 <= i < j ==> q[cands[i]] > q[a]))
  }

  /** There is only one first minimum: the exploitation choice is determined. */
  lemma FirstMinimumUnique(q: map<DroneId, real>, cands: seq<DroneId>, a: DroneId, b: DroneId)
    requires IsFirstMinimum(q, cands, a) && IsFirstMinimum(q, cands, b)
    ensures a == b
  {
    var ja :| 0 <= ja < |cands| && cands[ja] == a
      && (forall i :: 0 <= i < |cands| ==> q[a] <= q[cands[i]])
      && (forall i :: 0 <= i < ja ==> q[cands[i]] > q[a]);
    var jb :| 0 <= jb < |cands| && cands[jb] == b
      && (forall i :: 0 <= i < |cands| ==> q[b] <= q[cands[i]])
      && (forall i :: 0 <= i < jb ==> q[cands[i]] > q[b]);
    assert q[a] <= q[cands[jb]] && q[b] <= q[cands[ja]];
  }

  /** The exploitation loop of `action_selection`: strict `<` against a
      running best that starts at `inf`. */
  method FirstMinimum(q: map<DroneId, real>, cands: seq<DroneId>) returns (a: DroneId)
    requires cands != []
    requires forall i :: 0 <= i < |cands| ==> cands[i] in q
    ensures IsFirstMinimum(q, cands, a)
  {
    var best: Time := Infinite;
    a := cands[0];
    ghost var at := 0;
    var i := 0;
    while i < |cands|
      invariant 0 <= i <= |cands|
      invariant best.Infinite? <==> i == 0
      invariant best.Finite? ==> 0 <= at < i && cands[at] == a && q[a] == best.t
      invariant best.Finite? ==> forall j :: 0 <= j < i ==> q[a] <= q[cands[j]]
      invariant best.Finite? ==> forall j :: 0 <= j < at ==> q[cands[j]] > q[a]
    {
      if best.Infinite? || q[cands[i]] < best.t {
        a := cands[i];
        best := Finite(q[cands[i]]);
        at := i;
      }
      i := i + 1;
    }
  }

  /** The relay `action_selection` returns: on exploitation the first
      candidate with the smallest Q-value, on exploration the entry `pick`
      of the candidates followed by the drone itself. */
  ghost predicate Selected(q: map<DroneId, real>, cands: seq<DroneId>, self: DroneId, pick: nat, exploit: bool,
                           action: DroneId)
  {
    && (exploit ==> IsFirstMinimum(q, cands, action))
    && (!exploit ==> pick <= |cands| && action == (cands + [self])[pick])
  }

  // ---------------------------------------------------------------------
  // Loop avoidance

  /** Neighbours that have not carried the packet yet, in neighbour order
      (the source goes through a Python set, whose order is arbitrary). */
  function Unvisited(ids: seq<DroneId>, hops: set<DroneId>): (r: seq<DroneId>)
    ensures forall x :: x in r <==> x in ids && x !in hops
  {
    if ids == [] then []
    else (if ids[0] in hops then [] else [ids[0]]) + Unvisited(ids[1..], hops)
  }

  /** The drones `action_selection` chooses among: the unvisited neighbours,
      or all of them when every neighbour has carried the packet. */
  function Candidates(ids: seq<DroneId>, hops: set<DroneId>): (c: seq<DroneId>)
    ensures forall x :: x in c ==> x in ids
    ensures c == [] <==> ids == []
  {
    var t := Unvisited(ids, hops);
    if t != [] then t else ids
  }

  /** The weak loop-free property: a drone that has already carried the
      packet is a candidate only when every neighbour has. */
  lemma CandidatesAvoidLoops(ids: seq<DroneId>, hops: set<DroneId>)
    ensures (exists x :: x in ids && x !in hops) ==> forall x :: x in Candidates(ids, hops) ==> x !in hops
    ensures (forall x :: x in ids ==> x in hops) ==> Candidates(ids, hops) == ids
  {
    var t := Unvisited(ids, hops);
    if t != [] {
      assert t[0] in t;
    }
  }

  // ---------------------------------------------------------------------
  // Simulated annealing

  /** Temperature before the instability factor: 1 past `kMax` steps,
      `kMax / k` before. */
  function AnnealingBase(k: int, kMax: int): real
    requires k >= 1
  {
    if k > kMax then 1.0 else kMax as real / k as real
  }

  lemma AnnealingBaseBounds(k: int, kMax: int)
    requires k >= 1 && kMax >= 1
    ensures 1.0 <= AnnealingBase(k, kMax) <= kMax as real
  {
    if k <= kMax {
      DivAtLeastOne(kMax as real, k as real);
      DivAntitone(kMax as real, 1.0, k as real);
    }
  }

  /** Monotone in the number of steps: the base never rises. */
  lemma AnnealingBaseAntitone(k1: int, k2: int, kMax: int)
    requires 1 <= k1 <= k2 && kMax >= 1
    ensures AnnealingBase(k2, kMax) <= AnnealingBase(k1, kMax)
  {
    AnnealingBaseBounds(k1, kMax);
    if k2 <= kMax {
      DivAntitone(kMax as real, k1 as real, k2 as real);
    }
  }

  /** The safety checks of `update_temperature`: raise to 1, then cap at `top`. */
  function Clamp(x: real, top: real): real
  {
    var c := if x < 1.0 then 1.0 else x;
    if c > top then top else c
  }

  lemma ClampMonotone(a: real, b: real, top: real)
    requires a <= b
    ensures Clamp(a, top) <= Clamp(b, top)
  {
  }

  /** `update_temperature`: the base scaled by `f`, clamped into [1, kMax]. */
  function Temperature(k: int, kMax: int, f: real): (t: real)
    requires k >= 1
    ensures kMax >= 1 ==> 1.0 <= t <= kMax as real
  {
    Clamp(AnnealingBase(k, kMax) * f, kMax as real)
  }

  lemma TemperatureOfScaled(k: int, kMax: int, f: real, scaled: real)
    requires k >= 1 && scaled == AnnealingBase(k, kMax) * f
    ensures Temperature(k, kMax, f) == Clamp(scaled, kMax as real)
  {
  }

  /** Cooling: for a fixed instability factor, the temperature never rises
      as the number of routing steps grows. */
  lemma TemperatureCools(k1: int, k2: int, kMax: int, f: real)
    requires 1 <= k1 <= k2 && kMax >= 1 && f >= 0.0
    ensures Temperature(k2, kMax, f) <= Temperature(k1, kMax, f)
  {
    AnnealingBaseAntitone(k1, k2, kMax);
    MulMonotone(AnnealingBase(k2, kMax), AnnealingBase(k1, kMax), f);
    ClampMonotone(AnnealingBase(k2, kMax) * f, AnnealingBase(k1, kMax) * f, kMax as real);
  }

  /** Exploitation is chosen when the draw falls below `1 - exp(-10 / T)`. */
  predicate Exploits(r: real, exp: real -> real, temperature: real)
    requires temperature != 0.0
  {
    r <= 1.0 - exp(-10.0 / temperature)
  }

  // ---------------------------------------------------------------------
  // History of Q-value changes and the instability factor

  /** Sum of the absolute differences of neighbouring buffer slots, in slot
      order (the pair last slot / first slot is not included). */
  function TotalVariation(h: seq<real>): real
    decreases |h|
  {
    if |h| < 2 then 0.0 else TotalVariation(h[..|h| - 1]) + Abs(h[|h| - 1] - h[|h| - 2])
  }

  lemma {:induction false} TotalVariationNonNegative(h: seq<real>)
    ensures TotalVariation(h) >= 0.0
    decreases |h|
  {
    if |h| >= 2 {
      TotalVariationNonNegative(h[..|h| - 1]);
    }
  }

  /** A buffer that holds one value throughout has no variation. */
  lemma {:induction false} SteadyHistoryHasNoVariation(h: seq<real>)
    requires forall i :: 0 <= i < |h| ==> h[i] == h[0]
    ensures TotalVariation(h) == 0.0
    decreases |h|
  {
    if |h| >= 2 {
      SteadyHistoryHasNoVariation(h[..|h| - 1]);
    }
  }

  /** `evaluate_parameter_f`: total variation over H, clamped into [0.5, 10]. */
  function InstabilityFactor(h: seq<real>): (f: real)
    ensures 0.5 <= f <= 10.0
    ensures 0.5 <= TotalVariation(h) / H as real <= 10.0 ==> f == TotalVariation(h) / H as real
  {
    var v := TotalVariation(h) / H as real;
    if v < 0.5 then 0.5 else if v > 10.0 then 10.0 else v
  }

  /** A steady history gives the smallest factor: the temperature is halved. */
  lemma SteadyHistoryIsCalm(h: seq<real>)
    requires forall i :: 0 <= i < |h| ==> h[i] == h[0]
    ensures InstabilityFactor(h) == 0.5
  {
    SteadyHistoryHasNoVariation(h);
  }

  /** Ring-buffer slot after `idx`. */
  function NextSlot(idx: int): (n: int)
    requires -1 <= idx < H
    ensures 0 <= n < H
  {
    (idx + 1) % H
  }

  /** Buffer and last index after writing the values `vs` in order. */
  function Replay(buf: seq<real>, idx: int, vs: seq<real>): (r: (seq<real>, int))
    requires |buf| == H && -1 <= idx < H
    ensures |r.0| == H && -1 <= r.1 < H
    ensures vs == [] ==> r == (buf, idx)
    ensures vs != [] ==> r.1 == (idx + |vs|) % H
    decreases |vs|
  {
    if vs == [] then (buf, idx)
    else
      var p := Replay(buf, idx, vs[..|vs| - 1]);
      var n := NextSlot(p.1);
      ModSucc(idx + |vs| - 1);
      (p.0[n := vs[|vs| - 1]], n)
  }

  lemma ModShiftDiffers(a: int, d: int)
    requires 0 < d < H
    ensures (a + d) % H != a % H
  {
  }

  lemma ModSucc(x: int)
    ensures (x % H + 1) % H == (x + 1) % H
  {
  }

  /** The buffer holds the last H values written, each in the slot it was
      written to: it really is a history of the last H updates. */
  lemma {:induction false} HistoryHoldsLastWrites(buf: seq<real>, idx: int, vs: seq<real>, j: int)
    requires |buf| == H && -1 <= idx < H
    requires 0 <= j < |vs| && |vs| - j <= H
    ensures Replay(buf, idx, vs).0[(idx + 1 + j) % H] == vs[j]
    decreases |vs|
  {
    var init := vs[..|vs| - 1];
    var p := Replay(buf, idx, init);
    var n := NextSlot(p.1);
    assert Replay(buf, idx, vs) == (p.0[n := vs[|vs| - 1]], n);
    if init == [] {
      assert n == (idx + 1) % H;
    } else {
      ModSucc(idx + |init|);
      assert n == (idx + |vs|) % H;
    }
    if j < |vs| - 1 {
      HistoryHoldsLastWrites(buf, idx, init, j);
      assert init[j] == vs[j];
      ModShiftDiffers(idx + 1 + j, |vs| - 1 - j);
    }
  }

  // ---------------------------------------------------------------------
  // Delays carried by ACK and Estimation packets

  /** Transmission time in seconds, weighted by `TransmissionWeight`. */
  function TransmissionTime(timeOfReception: int, timeOfForwarding: int, tsDuration: real): real
  {
    (timeOfReception - timeOfForwarding) as real * tsDuration * TransmissionWeight
  }

  /** Queue time in seconds. */
  function QueueSeconds(queueTime: int, tsDuration: real): real
  {
    queueTime as real * tsDuration
  }

  // ---------------------------------------------------------------------
  // Dynamic learning rate

  predicate TimeLe(a: Time, b: Time) {
    b.Infinite? || (a.Finite? && a.t <= b.t)
  }

  /** `max(T_max, T_est)`. */
  function MaxTime(tMax: Time, tEst: Time): (m: Time)
    ensures TimeLe(tMax, m) && TimeLe(tEst, m)
    ensures m == tMax || m == tEst
  {
    match (tMax, tEst)
    case (Finite(a), Finite(b)) => if b > a then tEst else tMax
    case (_, _) => Infinite
  }

  /** `eta_2 = (T_est / T_max) * eta * echo_rate`, with float division by
      `inf` giving 0 and `inf / inf` giving NaN. */
  function DynamicRate(tEst: Time, tMax: Time): Rate
    requires TimeLe(tEst, tMax)
    requires tMax.Finite? ==> tMax.t >= 1.0
  {
    match (tEst, tMax)
    case (Finite(e), Finite(m)) => Rate(e / m * Eta * EchoRate)
    case (Finite(_), Infinite) => Rate(0.0)
    case (Infinite, _) => NaN
  }

  /** A non-negative estimate yields a rate between 0 and `eta * echo_rate`. */
  lemma DynamicRateBounds(tEst: Time, tMax: Time)
    requires TimeLe(tEst, tMax)
    requires tMax.Finite? ==> tMax.t >= 1.0
    requires tEst.Finite? && tEst.t >= 0.0
    ensures DynamicRate(tEst, tMax).Rate?
    ensures 0.0 <= DynamicRate(tEst, tMax).value <= Eta * EchoRate
  {
    if tMax.Finite? {
      var ratio := tEst.t / tMax.t;
      RatioAtMostOne(tEst.t, tMax.t);
      MulMonotone(0.0, ratio, Eta * EchoRate);
      MulMonotone(ratio, 1.0, Eta * EchoRate);
      assert ratio * Eta * EchoRate == ratio * (Eta * EchoRate);
    }
  }

  /** The beacon dictionary: a well-formed ordered dictionary whose every
      entry is keyed by its sender. */
  ghost predicate BeaconTable(d: Dict<DroneId, Hello>)
  {
    && d.Valid()
    && (forall id :: id in d.entries ==> d.entries[id].src == id)
  }

  // ---------------------------------------------------------------------
  // The routing object

  class FullyEchoedQLearningRouting {
    const drone: DroneId
    const depot: Coords
    /** Seconds per simulation step. */
    const tsDuration: real
    /** Age, in steps, beyond which a beacon no longer counts. */
    const oldHelloPacket: int
    /** Starting number of exploratory actions. */
    const kMax: int

    /** Ledger: event id -> the relay chosen for it. */
    var takenActions: map<EventId, DroneId>
    var exploitationCounter: nat
    var explorationCounter: nat
    /** Q-vector: neighbour id -> estimated seconds to the depot through it. */
    var qTable: map<DroneId, real>
    /** Latest beacon per neighbour, in first-reception order. */
    var helloMessages: Dict<DroneId, Hello>
    var tEst: Time
    var tMax: Time
    var eta2: Rate
    /** Routing steps taken. */
    var k: nat
    var temperature: real
    var f: real
    /** History of the last H new Q-values, written as a ring. */
    var lastHUpdates: seq<real>
    var lastHIndex: int

    ghost predicate Valid()
      reads this
    {
      && kMax >= 1
      && |lastHUpdates| == H
      && -1 <= lastHIndex < H
      && 1.0 <= temperature
      && BeaconTable(helloMessages)
      && TimeLe(tEst, tMax)
      && (tMax.Finite? ==> tMax.t >= 1.0)
    }

    constructor (drone: DroneId, depot: Coords, tsDuration: real, simDuration: real, oldHelloPacket: int)
      requires (tsDuration * simDuration / 3.0).Floor >= 1
      ensures Valid()
      ensures this.drone == drone && this.depot == depot && this.tsDuration == tsDuration
      ensures this.oldHelloPacket == oldHelloPacket && kMax == (tsDuration * simDuration / 3.0).Floor
      ensures takenActions == map[] && qTable == map[] && helloMessages == Empty()
      ensures exploitationCounter == 0 && explorationCounter == 0
      ensures tEst == Finite(1.0) && tMax == Finite(1.0) && eta2 == Rate(Eta * EchoRate)
      ensures k == 0 && temperature == kMax as real && f == 1.0
      ensures lastHUpdates == seq(H, _ => 1.0) && lastHIndex == -1
    {
      this.drone := drone;
      this.depot := depot;
      this.tsDuration := tsDuration;
      this.oldHelloPacket := oldHelloPacket;
      var kMax := (tsDuration * simDuration / 3.0).Floor;
      this.kMax := kMax;
      takenActions := map[];
      exploitationCounter, explorationCounter := 0, 0;
      qTable := map[];
      helloMessages := Empty();
      tEst, tMax := Finite(1.0), Finite(1.0);
      eta2 := Rate(1.0 / 1.0 * Eta * EchoRate);
      k := 0;
      temperature := kMax as real;
      f := 1.0;
      lastHUpdates := seq(H, _ => 1.0);
      lastHIndex := -1;
    }

    function Cutoff(currentTs: int): int
    {
      currentTs - oldHelloPacket
    }

    /** `get_opt_neighbors`: scan the stored beacons, skipping stale ones. */
    method GetOptNeighbors(currentTs: int) returns (ns: seq<Hello>)
      requires Valid()
      ensures ns == FreshNeighbors(helloMessages, Cutoff(currentTs))
    {
      var order, entries := helloMessages.order, helloMessages.entries;
      ns := [];
      var i := 0;
      while i < |order|
        invariant 0 <= i <= |order|
        invariant ns == FreshFrom(order[..i], entries, Cutoff(currentTs))
      {
        assert order[..i + 1][..i] == order[..i];
        var hpk := entries[order[i]];
        i := i + 1;
        if hpk.created < currentTs - oldHelloPacket {
          continue;
        }
        ns := ns + [hpk];
      }
      assert order[..i] == order;
    }

    /** `check_new_neighbors`. */
    method CheckNewNeighbors(hs: seq<Hello>, dist: (Coords, Coords) -> real)
      modifies this`qTable
      ensures qTable == AddNewNeighbors(old(qTable), hs, depot, dist)
    {
      ghost var q0 := qTable;
      var i := 0;
      while i < |hs|
        invariant 0 <= i <= |hs|
        invariant qTable == AddNewNeighbors(q0, hs[..i], depot, dist)
      {
        assert hs[..i + 1][..i] == hs[..i];
        var hpk := hs[i];
        if hpk.src !in qTable {
          qTable := qTable[hpk.src := dist(hpk.pos, depot) / hpk.speed];
        }
        i := i + 1;
      }
      assert hs[..i] == hs;
    }

    /** Every listed neighbour has a Q-value after `AddNewNeighbors`. */
    static lemma NeighborsKnown(q: map<DroneId, real>, hs: seq<Hello>, depot: Coords,
                                dist: (Coords, Coords) -> real)
      ensures forall i :: 0 <= i < |hs| ==> hs[i].src in AddNewNeighbors(q, hs, depot, dist)
    {
      AddNewNeighborsSpec(q, hs, depot, dist);
      assert forall i :: 0 <= i < |hs| ==> hs[i] in hs;
    }

    /** `update_changes_history`: advance the index, overwrite that slot. */
    method UpdateChangesHistory(newQValue: real)
      requires Valid()
      modifies this`lastHIndex, this`lastHUpdates
      ensures Valid()
      ensures lastHIndex == NextSlot(old(lastHIndex))
      ensures lastHUpdates == old(lastHUpdates)[lastHIndex := newQValue]
      ensures (lastHUpdates, lastHIndex) == Replay(old(lastHUpdates), old(lastHIndex), [newQValue])
    {
      lastHIndex := (lastHIndex + 1) % H;
      lastHUpdates := lastHUpdates[lastHIndex := newQValue];
      assert [newQValue][..0] == [];
    }

    /** `evaluate_parameter_f`. */
    method EvaluateParameterF()
      requires Valid()
      modifies this`f
      ensures f == InstabilityFactor(lastHUpdates)
    {
      f := 0.0;
      var i := 0;
      while i < |lastHUpdates| - 1
        invariant 0 <= i <= |lastHUpdates| - 1
        invariant f == TotalVariation(lastHUpdates[..i + 1])
      {
        assert lastHUpdates[..i + 2][..i + 1] == lastHUpdates[..i + 1];
        f := f + Abs(lastHUpdates[i + 1] - lastHUpdates[i]);
        i := i + 1;
      }
      assert lastHUpdates[..i + 1] == lastHUpdates;
      f := f / H as real;
      if f < 0.5 {
        f := 0.5;
      } else if f > 10.0 {
        f := 10.0;
      }
    }

    /** `update_temperature`. */
    method UpdateTemperature()
      requires Valid() && k >= 1
      modifies this`temperature
      ensures Valid()
      ensures temperature == Temperature(k, kMax, f)
    {
      if k > kMax {
        temperature := 1.0;
      } else {
        temperature := kMax as real / k as real;
      }
      assert temperature == AnnealingBase(k, kMax);
      temperature := temperature * f;
      ghost var scaled := temperature;
      TemperatureOfScaled(k, kMax, f, scaled);
      if temperature < 1.0 {
        temperature := 1.0;
      }
      if temperature > kMax as real {
        temperature := kMax as real;
      }
      assert temperature == Clamp(scaled, kMax as real);
    }

    /** `update_dynamic_learning_rate`: learn the fresh neighbours, then
        T_est is their smallest Q-value, T_max the largest T_est seen. */
    method UpdateDynamicLearningRate(currentTs: int, dist: (Coords, Coords) -> real)
      requires Valid()
      modifies this`qTable, this`tEst, this`tMax, this`eta2
      ensures Valid()
      ensures var opt := FreshNeighbors(helloMessages, Cutoff(currentTs));
        && qTable == AddNewNeighbors(old(qTable), opt, depot, dist)
        && IsMinimum(qTable, HelloIds(opt), tEst)
      ensures tMax == MaxTime(old(tMax), tEst)
      ensures eta2 == DynamicRate(tEst, tMax)
    {
      var opt := GetOptNeighbors(currentTs);
      CheckNewNeighbors(opt, dist);
      NeighborsKnown(old(qTable), opt, depot, dist);
      tEst := EstimateTimeToDepot(qTable, HelloIds(opt));
      tMax := MaxTime(tMax, tEst);
      eta2 := DynamicRate(tEst, tMax);
    }

    /** `action_selection`: exploit the smallest Q-value or explore among the
        candidates and the drone itself. `pick` is the index `choice` draws. */
    method ActionSelection(cands: seq<DroneId>, r: real, pick: nat, exp: real -> real) returns (action: DroneId)
      requires Valid()
      requires forall i :: 0 <= i < |cands| ==> cands[i] in qTable
      requires pick <= |cands|
      requires cands != []
      modifies this`exploitationCounter, this`explorationCounter
      ensures Selected(qTable, cands, drone, pick, Exploits(r, exp, temperature), action)
      ensures Exploits(r, exp, temperature) ==>
        exploitationCounter == old(exploitationCounter) + 1 && explorationCounter == old(explorationCounter)
      ensures !Exploits(r, exp, temperature) ==>
        explorationCounter == old(explorationCounter) + 1 && exploitationCounter == old(exploitationCounter)
    {
      var epsilon := exp(-10.0 / temperature);
      if r <= 1.0 - epsilon {
        exploitationCounter := exploitationCounter + 1;
        action := FirstMinimum(qTable, cands);
      } else {
        explorationCounter := explorationCounter + 1;
        action := (cands + [drone])[pick];
      }
    }

    /** `relay_selection`: one routing step. */
    method RelaySelection(neighbors: seq<Hello>, packet: Packet, curStep: int, r: real, pick: nat,
                          exp: real -> real, dist: (Coords, Coords) -> real) returns (action: DroneId)
      requires Valid()
      requires pick <= |Candidates(HelloIds(neighbors), packet.hops)|
      requires neighbors != []
      modifies this`k, this`qTable, this`temperature, this`exploitationCounter, this`explorationCounter,
               this`takenActions, this`f, this`tEst, this`tMax, this`eta2
      ensures Valid()
      ensures k == old(k) + 1
      ensures temperature == Temperature(k, kMax, old(f))
      ensures takenActions == old(takenActions)[packet.eventId := action]
      ensures var q1 := AddNewNeighbors(old(qTable), neighbors, depot, dist);
        && Selected(q1, Candidates(HelloIds(neighbors), packet.hops), drone, pick, Exploits(r, exp, temperature), action)
        && qTable == AddNewNeighbors(q1, FreshNeighbors(helloMessages, Cutoff(curStep)), depot, dist)
      ensures action == drone || action in HelloIds(neighbors)
      ensures Exploits(r, exp, temperature) ==>
        exploitationCounter == old(exploitationCounter) + 1 && explorationCounter == old(explorationCounter)
      ensures !Exploits(r, exp, temperature) ==>
        explorationCounter == old(explorationCounter) + 1 && exploitationCounter == old(exploitationCounter)
      ensures f == InstabilityFactor(lastHUpdates)
      ensures IsMinimum(qTable, HelloIds(FreshNeighbors(helloMessages, Cutoff(curStep))), tEst)
      ensures tMax == MaxTime(old(tMax), tEst) && eta2 == DynamicRate(tEst, tMax)
    {
      action := ChooseRelay(neighbors, packet.hops, r, pick, exp, dist);
      FinishStep(packet.eventId, action, curStep, dist);
    }

    /** The second half of `relay_selection`: record the decision, refresh
        the instability factor and the dynamic learning rate. */
    method FinishStep(eventId: EventId, action: DroneId, curStep: int, dist: (Coords, Coords) -> real)
      requires Valid()
      modifies this`takenActions, this`f, this`qTable, this`tEst, this`tMax, this`eta2
      ensures Valid()
      ensures takenActions == old(takenActions)[eventId := action]
      ensures f == InstabilityFactor(lastHUpdates)
      ensures qTable == AddNewNeighbors(old(qTable), FreshNeighbors(helloMessages, Cutoff(curStep)), depot, dist)
      ensures IsMinimum(qTable, HelloIds(FreshNeighbors(helloMessages, Cutoff(curStep))), tEst)
      ensures tMax == MaxTime(old(tMax), tEst) && eta2 == DynamicRate(tEst, tMax)
    {
      takenActions := takenActions[eventId := action];
      EvaluateParameterF();
      UpdateDynamicLearningRate(curStep, dist);
    }

    /** The first half of `relay_selection`: count the step, learn the
        listed neighbours, cool down, and pick the relay among the neighbours
        that have not carried the packet (all of them if every one has). */
    method ChooseRelay(neighbors: seq<Hello>, hops: set<DroneId>, r: real, pick: nat,
                       exp: real -> real, dist: (Coords, Coords) -> real) returns (action: DroneId)
      requires Valid()
      requires pick <= |Candidates(HelloIds(neighbors), hops)|
      requires neighbors != []
      modifies this`k, this`qTable, this`temperature, this`exploitationCounter, this`explorationCounter
      ensures Valid()
      ensures k == old(k) + 1
      ensures temperature == Temperature(k, kMax, f)
      ensures qTable == AddNewNeighbors(old(qTable), neighbors, depot, dist)
      ensures Selected(qTable, Candidates(HelloIds(neighbors), hops), drone, pick, Exploits(r, exp, temperature), action)
      ensures action == drone || action in HelloIds(neighbors)
      ensures Exploits(r, exp, temperature) ==>
        exploitationCounter == old(exploitationCounter) + 1 && explorationCounter == old(explorationCounter)
      ensures !Exploits(r, exp, temperature) ==>
        explorationCounter == old(explorationCounter) + 1 && exploitationCounter == old(exploitationCounter)
    {
      k := k + 1;
      CheckNewNeighbors(neighbors, dist);
      var ids := HelloIds(neighbors);
      CandidatesKnown(old(qTable), neighbors, hops, depot, dist);
      var trimmed := Unvisited(ids, hops);
      UpdateTemperature();
      var cands := if trimmed != [] then trimmed else ids;
      assert cands == Candidates(ids, hops);
      action := ActionSelection(cands, r, pick, exp);
      ChosenIsNeighborOrSelf(qTable, neighbors, hops, drone, pick, Exploits(r, exp, temperature), action);
    }

    /** Every candidate of a routing step has a Q-value once the listed
        neighbours are learnt. */
    static lemma CandidatesKnown(q: map<DroneId, real>, hs: seq<Hello>, hops: set<DroneId>, depot: Coords,
                                 dist: (Coords, Coords) -> real)
      ensures var cands := Candidates(HelloIds(hs), hops);
        forall i :: 0 <= i < |cands| ==> cands[i] in AddNewNeighbors(q, hs, depot, dist)
    {
      NeighborsKnown(q, hs, depot, dist);
      var ids := HelloIds(hs);
      var cands := Candidates(ids, hops);
      forall i | 0 <= i < |cands| ensures cands[i] in AddNewNeighbors(q, hs, depot, dist) {
        assert cands[i] in ids;
      }
    }

    /** The relay is one of the neighbours, or the drone itself. */
    static lemma ChosenIsNeighborOrSelf(q: map<DroneId, real>, neighbors: seq<Hello>, hops: set<DroneId>,
                                        self: DroneId, pick: nat, exploit: bool, action: DroneId)
      requires Selected(q, Candidates(HelloIds(neighbors), hops), self, pick, exploit, action)
      ensures action == self || action in HelloIds(neighbors)
    {
      var cands := Candidates(HelloIds(neighbors), hops);
      if !exploit && pick < |cands| {
        assert action == cands[pick];
      }
    }

    /** `feedback`: drop the ledger entry if there is one; nothing is learnt. */
    method Feedback(idEvent: EventId)
      requires Valid()
      modifies this`takenActions
      ensures Valid()
      ensures takenActions == old(takenActions) - {idEvent}
      ensures idEvent !in old(takenActions) ==> takenActions == old(takenActions)
    {
      if idEvent in takenActions {
        takenActions := takenActions - {idEvent};
      }
    }

    /** After a Data packet: the fresh neighbours are learnt and the reply is
        an ACK to the sender carrying the reception step, the forwarding step
        and queue time it came with, and this drone's smallest Q-value. */
    ghost predicate DataHandled(q0: map<DroneId, real>, src: DroneId, timeOfForwarding: int, queueTime: int,
                                currentTs: int, dist: (Coords, Coords) -> real, out: Outgoing)
      reads this
    {
      && helloMessages.Valid()
      && var opt := FreshNeighbors(helloMessages, Cutoff(currentTs));
      && qTable == AddNewNeighbors(q0, opt, depot, dist)
      && out.Unicast? && out.msg.AckMsg?
      && out == Unicast(src, AckMsg(currentTs, timeOfForwarding, queueTime, out.msg.estimate))
      && IsMinimum(qTable, HelloIds(opt), out.msg.estimate)
    }

    /** After an ACK: the sender's Q-value took one step of rate `Eta`
        towards transmission + queue time + the sender's estimate, the new
        value is the latest entry of the history, the fresh neighbours are
        learnt, and this drone's smallest Q-value is broadcast to them with
        the same queue and transmission times. */
    ghost predicate AckHandled(q0: map<DroneId, real>, buf0: seq<real>, idx0: int, src: DroneId,
                               timeOfReception: int, timeOfForwarding: int, queueTime: int, estimateY: real,
                               currentTs: int, dist: (Coords, Coords) -> real, out: Outgoing)
      reads this
    {
      && src in q0 && helloMessages.Valid() && -1 <= idx0 < H && |buf0| == H
      && var tt := TransmissionTime(timeOfReception, timeOfForwarding, tsDuration);
      && var qt := QueueSeconds(queueTime, tsDuration);
      && var newQ := TdStep(q0[src], Eta, tt + qt + estimateY);
      && var opt := FreshNeighbors(helloMessages, Cutoff(currentTs));
      && qTable == AddNewNeighbors(q0[src := newQ], opt, depot, dist)
      && src in qTable && qTable[src] == newQ
      && lastHIndex == NextSlot(idx0)
      && lastHUpdates == buf0[lastHIndex := newQ]
      && out.Broadcast? && out.msg.EstimationMsg?
      && out == Broadcast(HelloIds(opt), EstimationMsg(out.msg.estimate, qt, tt))
      && IsMinimum(qTable, HelloIds(opt), out.msg.estimate)
    }

    /** After an Estimation packet: a sender without a Q-value got one from
        its beacon, then its Q-value took one step of rate `eta2` towards
        transmission + queue time + the sender's estimate. */
    ghost predicate EstimationHandled(q0: map<DroneId, real>, src: DroneId, estimateX: real, queueSeconds: real,
                                      transmissionSeconds: real, dist: (Coords, Coords) -> real)
      reads this
    {
      && eta2.Rate?
      && (src in q0 || src in helloMessages.entries)
      && var q1 := if src in q0 then q0 else q0[src := InitialQ(helloMessages.entries[src], depot, dist)];
      && qTable == q1[src := TdStep(q1[src], eta2.value, transmissionSeconds + queueSeconds + estimateX)]
    }

    /** A Hello beacon replaces the stored beacon of its sender. */
    method OnHello(hpk: Hello)
      requires Valid()
      modifies this`helloMessages
      ensures Valid()
      ensures helloMessages == old(helloMessages).Put(hpk.src, hpk)
    {
      helloMessages := helloMessages.Put(hpk.src, hpk);
    }

    /** A Data packet: learn the fresh neighbours and answer the sender with
        an ACK carrying this drone's estimate of the time to the depot. */
    method OnData(src: DroneId, timeOfForwarding: int, queueTime: int, currentTs: int,
                  dist: (Coords, Coords) -> real) returns (out: Outgoing)
      requires Valid()
      modifies this`qTable
      ensures Valid()
      ensures DataHandled(old(qTable), src, timeOfForwarding, queueTime, currentTs, dist, out)
    {
      var opt := GetOptNeighbors(currentTs);
      CheckNewNeighbors(opt, dist);
      NeighborsKnown(old(qTable), opt, depot, dist);
      var estimate := EstimateTimeToDepot(qTable, HelloIds(opt));
      out := Unicast(src, AckMsg(currentTs, timeOfForwarding, queueTime, estimate));
    }

    /** An ACK: move the sender's Q-value towards transmission + queue time +
        the sender's estimate (rate `Eta`), record the new value in the
        history, and broadcast this drone's new estimate to the fresh
        neighbours. */
    method OnAck(src: DroneId, timeOfReception: int, timeOfForwarding: int, queueTime: int, estimateY: real,
                 currentTs: int, dist: (Coords, Coords) -> real) returns (out: Outgoing)
      requires Valid() && src in qTable
      modifies this`qTable, this`lastHIndex, this`lastHUpdates
      ensures Valid()
      ensures AckHandled(old(qTable), old(lastHUpdates), old(lastHIndex), src, timeOfReception, timeOfForwarding,
                         queueTime, estimateY, currentTs, dist, out)
    {
      var transmissionTime := TransmissionTime(timeOfReception, timeOfForwarding, tsDuration);
      var queueSeconds := QueueSeconds(queueTime, tsDuration);
      qTable := qTable[src := TdStep(qTable[src], Eta, transmissionTime + queueSeconds + estimateY)];
      UpdateChangesHistory(qTable[src]);
      ghost var q1 := qTable;
      var opt := GetOptNeighbors(currentTs);
      CheckNewNeighbors(opt, dist);
      NeighborsKnown(q1, opt, depot, dist);
      AddNewNeighborsSpec(q1, opt, depot, dist);
      var estimateX := EstimateTimeToDepot(qTable, HelloIds(opt));
      out := Broadcast(HelloIds(opt), EstimationMsg(estimateX, queueSeconds, transmissionTime));
    }

    /** An Estimation packet: a sender without a Q-value first gets one from
        its beacon; then its Q-value moves towards transmission + queue time +
        the sender's estimate at the dynamic rate `eta2`. */
    method OnEstimation(src: DroneId, estimateX: real, queueSeconds: real, transmissionSeconds: real,
                        dist: (Coords, Coords) -> real)
      requires Valid() && eta2.Rate?
      requires src in qTable || src in helloMessages.entries
      modifies this`qTable
      ensures Valid()
      ensures EstimationHandled(old(qTable), src, estimateX, queueSeconds, transmissionSeconds, dist)
    {
      if src !in qTable {
        var srcHello := helloMessages.entries[src];
        qTable := qTable[src := dist(srcHello.pos, depot) / srcHello.speed];
      }
      qTable := qTable[src := TdStep(qTable[src], eta2.value, transmissionSeconds + queueSeconds + estimateX)];
    }

    /** `drone_reception`: the Hello / Data / ACK / Estimation state machine.
        Returns the message the drone sends in reply. */
    method DroneReception(src: DroneId, msg: Message, currentTs: int, dist: (Coords, Coords) -> real)
      returns (out: Outgoing)
      requires Valid()
      requires msg.AckMsg? ==> src in qTable && msg.estimate.Finite?
      requires msg.EstimationMsg? ==>
        (src in qTable || src in helloMessages.entries) && msg.estimate.Finite? && eta2.Rate?
      modifies this`helloMessages, this`qTable, this`lastHIndex, this`lastHUpdates
      ensures Valid()
      ensures !msg.AckMsg? ==> lastHIndex == old(lastHIndex) && lastHUpdates == old(lastHUpdates)
      ensures !msg.HelloMsg? ==> helloMessages == old(helloMessages)
      ensures msg.HelloMsg? ==>
        && helloMessages == old(helloMessages).Put(msg.hello.src, msg.hello)
        && qTable == old(qTable) && out == Silent
      ensures msg.DataMsg? ==>
        DataHandled(old(qTable), src, msg.timeOfForwarding, msg.queueTime, currentTs, dist, out)
      ensures msg.AckMsg? ==>
        AckHandled(old(qTable), old(lastHUpdates), old(lastHIndex), src, msg.timeOfReception, msg.timeOfForwarding,
                   msg.queueTime, msg.estimate.t, currentTs, dist, out)
      ensures msg.EstimationMsg? ==>
        && EstimationHandled(old(qTable), src, msg.estimate.t, msg.queueSeconds, msg.transmissionSeconds, dist)
        && out == Silent
    {
      if msg.HelloMsg? {
        OnHello(msg.hello);
        out := Silent;
      } else if msg.DataMsg? {
        out := OnData(src, msg.timeOfForwarding, msg.queueTime, currentTs, dist);
      } else if msg.AckMsg? {
        out := OnAck(src, msg.timeOfReception, msg.timeOfForwarding, msg.queueTime, msg.estimate.t, currentTs, dist);
      } else {
        OnEstimation(src, msg.estimate.t, msg.queueSeconds, msg.transmissionSeconds, dist);
        out := Silent;
      }
    }
  }
}
