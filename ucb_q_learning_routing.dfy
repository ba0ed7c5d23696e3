/** UCB Q-Learning. A drone keeps, per cell it has been in, one Q-value
    per drone of the swarm (a normalised random row to start with) and one
    `Action` object per drone counting how often that drone was chosen
    there. The relay is the drone of largest upper confidence bound — its
    Q-value plus an exploration bonus that shrinks the more often it was
    chosen — among the drone itself and its neighbours. When the packet's
    fate is known, one temporal-difference step is applied, bootstrapping
    from the chosen drone's own Q-table. */
module UcbQLearning {
  import opened Common

  /** Learning rate. */
  const Alpha: real := 0.5
  /** Discount factor. */
  const Gamma: real := 0.5
  /** Weight of the exploration bonus. */
  const C: real := 16.0

  /** A selection count: it starts at 1 and only grows, so it can divide. */
  type Positive = n: int | n >= 1 witness 1

  // ---------------------------------------------------------------------
  // Rows

  function Sum(s: seq<real>): real
  {
    if s == [] then 0.0 else Sum(s[..|s| - 1]) + s[|s| - 1]
  }

  /** `values / sum(values)`, elementwise. */
  function Normalize(draws: seq<real>): (row: seq<real>)
    requires Sum(draws) != 0.0
    ensures |row| == |draws|
  {
    Scaled(draws, Sum(draws))
  }

  function Scaled(s: seq<real>, k: real): (r: seq<real>)
    requires k != 0.0
    ensures |r| == |s| && forall i :: 0 <= i < |s| ==> r[i] == s[i] / k
  {
    seq(|s|, i requires 0 <= i < |s| => s[i] / k)
  }

  lemma {:induction false} SumScaled(s: seq<real>, k: real)
    requires k != 0.0
    ensures Sum(Scaled(s, k)) == Sum(s) / k
    decreases |s|
  {
    if s != [] {
      var init := s[..|s| - 1];
      assert Scaled(s, k)[..|s| - 1] == Scaled(init, k);
      SumScaled(init, k);
      DivAdd(Sum(init), s[|s| - 1], k);
    }
  }

  lemma DivAdd(a: real, b: real, k: real)
    requires k != 0.0
    ensures a / k + b / k == (a + b) / k
  {
  }

  lemma DivSelf(k: real)
    requires k != 0.0
    ensures k / k == 1.0
  {
  }

  lemma {:induction false} ElementAtMostSum(s: seq<real>, i: nat)
    requires i < |s| && forall j :: 0 <= j < |s| ==> s[j] >= 0.0
    ensures 0.0 <= s[i] <= Sum(s)
    decreases |s|
  {
    var init := s[..|s| - 1];
    SumNonNegative(init);
    if i < |s| - 1 {
      ElementAtMostSum(init, i);
    }
  }

  lemma {:induction false} SumNonNegative(s: seq<real>)
    requires forall j :: 0 <= j < |s| ==> s[j] >= 0.0
    ensures Sum(s) >= 0.0
    decreases |s|
  {
    if s != [] {
      SumNonNegative(s[..|s| - 1]);
    }
  }

  /** A fresh row made from draws in [0, 1) with a positive sum is a
      probability distribution: every entry in [0, 1], total 1. */
  lemma NormalizedRowIsDistribution(draws: seq<real>)
    requires forall i :: 0 <= i < |draws| ==> 0.0 <= draws[i] < 1.0
    requires Sum(draws) > 0.0
    ensures forall i :: 0 <= i < |draws| ==> 0.0 <= Normalize(draws)[i] <= 1.0
    ensures Sum(Normalize(draws)) == 1.0
  {
    var row := Normalize(draws);
    forall i | 0 <= i < |draws| ensures 0.0 <= row[i] <= 1.0 {
      ElementAtMostSum(draws, i);
      RatioAtMostOne(draws[i], Sum(draws));
    }
    SumScaled(draws, Sum(draws));
    DivSelf(Sum(draws));
  }

  /** `max` over a row. */
  function SeqMax(s: seq<real>): (m: real)
    requires s != []
    ensures m in s
    ensures forall i :: 0 <= i < |s| ==> s[i] <= m
    decreases |s|
  {
    if |s| == 1 then s[0]
    else
      var m := SeqMax(s[..|s| - 1]);
      if s[|s| - 1] > m then s[|s| - 1] else m
  }

  /** Give cell `c` a fresh row made from `draws` unless it has one. */
  function WithRow(q: map<Cell, seq<real>>, c: Cell, draws: seq<real>): (q': map<Cell, seq<real>>)
    requires c !in q ==> Sum(draws) != 0.0
    ensures q'.Keys == q.Keys + {c}
    ensures forall d :: d in q ==> q'[d] == q[d]
    ensures c !in q ==> q'[c] == Normalize(draws)
  {
    if c in q then q else q[c := Normalize(draws)]
  }

  // ---------------------------------------------------------------------
  // Upper confidence bounds

  /** The bound `update_estimate` computes: the action value plus
      `sqrt(c * ln(step) / selections)`. */
  function Estimate(actionValue: real, curStep: int, selections: Positive, c: real,
                    ln: real -> real, sqrt: real -> real): real
  {
    actionValue + sqrt(c * ln(curStep as real) / selections as real)
  }

  /** What the proofs need of the logarithm and the square root. */
  ghost predicate Lawful(ln: real -> real, sqrt: real -> real)
  {
    && ln(1.0) == 0.0
    && (forall x :: x > 1.0 ==> ln(x) > 0.0)
    && (forall x, y :: 0.0 <= x < y ==> sqrt(x) < sqrt(y))
  }

  /** The more often a drone was chosen, the smaller its bonus: the bound
      never grows with the count, and strictly shrinks after the first step
      (at step 1 the bonus is `sqrt(0)` whatever the count). */
  lemma EstimateAntitone(q: real, curStep: int, s1: Positive, s2: Positive, c: real,
                         ln: real -> real, sqrt: real -> real)
    requires Lawful(ln, sqrt) && c > 0.0 && curStep >= 1 && s1 <= s2
    ensures Estimate(q, curStep, s2, c, ln, sqrt) <= Estimate(q, curStep, s1, c, ln, sqrt)
    ensures curStep > 1 && s1 < s2 ==> Estimate(q, curStep, s2, c, ln, sqrt) < Estimate(q, curStep, s1, c, ln, sqrt)
  {
    if curStep > 1 && s1 < s2 {
      var p := c * ln(curStep as real);
      PositiveProduct(c, ln(curStep as real));
      DivStrictAntitone(p, s1 as real, s2 as real);
    } else if curStep == 1 {
      assert c * ln(curStep as real) == 0.0;
    }
  }

  lemma PositiveProduct(a: real, b: real)
    requires a > 0.0 && b > 0.0
    ensures a * b > 0.0
  {
  }

  lemma DivStrictAntitone(p: real, s1: real, s2: real)
    requires p > 0.0 && 0.0 < s1 < s2
    ensures 0.0 < p / s2 < p / s1
  {
  }

  /** The bounds of all drones for one cell. */
  function Estimates(q: seq<real>, totals: seq<Positive>, curStep: int, ln: real -> real, sqrt: real -> real)
    : (e: seq<real>)
    requires |q| == |totals|
    ensures |e| == |q|
    ensures forall i :: 0 <= i < |q| ==> e[i] == Estimate(q[i], curStep, totals[i], C, ln, sqrt)
  {
    seq(|q|, i requires 0 <= i < |q| => Estimate(q[i], curStep, totals[i], C, ln, sqrt))
  }

  /** The identifiers of a list of neighbours, collected in order. */
  function IdSet(ns: seq<Peer>): set<DroneId>
  {
    if ns == [] then {} else IdSet(ns[..|ns| - 1]) + {ns[|ns| - 1].id}
  }

  /** `IdSet` holds exactly the identifiers that occur in the list. */
  lemma {:induction false} IdSetMembers(ns: seq<Peer>, x: DroneId)
    ensures x in IdSet(ns) <==> exists j :: 0 <= j < |ns| && ns[j].id == x
  {
    if ns != [] {
      var init := ns[..|ns| - 1];
      IdSetMembers(init, x);
      if x in IdSet(init) {
        var j :| 0 <= j < |init| && init[j].id == x;
        assert ns[j] == init[j];
      }
      if j :| 0 <= j < |ns| && ns[j].id == x {
        if j < |init| {
          assert init[j] == ns[j];
        }
      }
    }
  }

  lemma IdSetGrows(ns: seq<Peer>, i: nat)
    requires i < |ns|
    ensures IdSet(ns[..i + 1]) == IdSet(ns[..i]) + {ns[i].id}
  {
    assert ns[..i + 1][..i] == ns[..i];
  }

  /** The running best of `relay_selection`: the relay, its position and
      its bound. */
  datatype Pick = Pick(relay: DroneId, coords: Coords, top: real)

  predicate Indexes(ns: seq<Peer>, n: nat)
  {
    forall i :: 0 <= i < |ns| ==> ns[i].id < n
  }

  /** The scan of `relay_selection`: start from the drone itself, replace
      the best by a neighbour only when its bound is strictly larger. */
  function UcbScan(ns: seq<Peer>, est: seq<real>, self: DroneId, selfCoords: Coords): (p: Pick)
    requires self < |est| && Indexes(ns, |est|)
    ensures p.relay < |est| && p.top == est[p.relay]
    decreases |ns|
  {
    if ns == [] then Pick(self, selfCoords, est[self])
    else
      var p := UcbScan(ns[..|ns| - 1], est, self, selfCoords);
      var n := ns[|ns| - 1];
      if est[n.id] > p.top then Pick(n.id, n.coords, est[n.id]) else p
  }

  /** One more neighbour replaces the running best only when its bound is
      strictly larger. */
  lemma UcbScanStep(ns: seq<Peer>, est: seq<real>, self: DroneId, selfCoords: Coords, i: nat)
    requires self < |est| && Indexes(ns, |est|) && i < |ns|
    ensures var p := UcbScan(ns[..i], est, self, selfCoords);
      var n := ns[i];
      UcbScan(ns[..i + 1], est, self, selfCoords) == if est[n.id] > p.top then Pick(n.id, n.coords, est[n.id]) else p
  {
    assert ns[..i + 1][..i] == ns[..i];
  }

  /** `p` is the first of the drone itself followed by its neighbours with
      the largest bound. */
  ghost predicate FirstMaximum(ns: seq<Peer>, est: seq<real>, self: DroneId, selfCoords: Coords, p: Pick)
    requires self < |est| && Indexes(ns, |est|)
  {
    && (forall j :: 0 <= j < |ns| ==> est[ns[j].id] <= p.top)
    && est[self] <= p.top
    && ((p == Pick(self, selfCoords, est[self]))
        || (exists i :: 0 <= i < |ns| && p == Pick(ns[i].id, ns[i].coords, est[ns[i].id])
                        && est[self] < p.top && (forall j :: 0 <= j < i ==> est[ns[j].id] < p.top)))
  }

  /** The relay chosen is the first candidate of largest bound, and it is
      the drone itself or one of its neighbours. */
  lemma UcbPicksFirstMaximum(ns: seq<Peer>, est: seq<real>, self: DroneId, selfCoords: Coords)
    requires self < |est| && Indexes(ns, |est|)
    ensures FirstMaximum(ns, est, self, selfCoords, UcbScan(ns, est, self, selfCoords))
    ensures var p := UcbScan(ns, est, self, selfCoords); p.relay == self || p.relay in Ids(ns)
  {
    var i := UcbMaximumIndex(ns, est, self, selfCoords);
    if i >= 0 {
      assert Ids(ns)[i] == ns[i].id;
    }
  }

  /** Where the first maximum is: -1 for the drone itself. */
  lemma {:induction false} UcbMaximumIndex(ns: seq<Peer>, est: seq<real>, self: DroneId, selfCoords: Coords)
    returns (i: int)
    requires self < |est| && Indexes(ns, |est|)
    ensures -1 <= i < |ns|
    ensures var p := UcbScan(ns, est, self, selfCoords);
      && (forall j :: 0 <= j < |ns| ==> est[ns[j].id] <= p.top)
      && est[self] <= p.top
      && (i == -1 ==> p == Pick(self, selfCoords, est[self]))
      && (i >= 0 ==> p == Pick(ns[i].id, ns[i].coords, est[ns[i].id]) && est[self] < p.top
                     && (forall j :: 0 <= j < i ==> est[ns[j].id] < p.top))
    decreases |ns|
  {
    if ns == [] {
      i := -1;
    } else {
      var init := ns[..|ns| - 1];
      var k := UcbMaximumIndex(init, est, self, selfCoords);
      assert forall j :: 0 <= j < |init| ==> init[j] == ns[j];
      var p := UcbScan(init, est, self, selfCoords);
      if est[ns[|ns| - 1].id] > p.top {
        i := |ns| - 1;
      } else {
        i := k;
      }
    }
  }

  // ---------------------------------------------------------------------
  // Actions

  /** A drone as an action in one cell, with its selection count and its
      latest bound. */
  class Action {
    const id: DroneId
    const cell: Cell
    var totalSelections: Positive
    var estimate: real

    constructor (id: DroneId, cell: Cell)
      ensures this.id == id && this.cell == cell
      ensures totalSelections == 1 && estimate == 0.0
    {
      this.id := id;
      this.cell := cell;
      totalSelections := 1;
      estimate := 0.0;
    }

    /** `update_estimate`; the logarithm's domain is checked by the caller. */
    method UpdateEstimate(curStep: int, actionValue: real, c: real, ln: real -> real, sqrt: real -> real)
      returns (e: real)
      modifies this`estimate
      ensures estimate == Estimate(actionValue, curStep, totalSelections, c, ln, sqrt)
      ensures e == estimate
    {
      estimate := actionValue + sqrt(c * ln(curStep as real) / totalSelections as real);
      e := estimate;
    }

    /** `update_selection_count`. */
    method UpdateSelectionCount()
      modifies this`totalSelections
      ensures totalSelections == old(totalSelections) + 1
    {
      totalSelections := totalSelections + 1;
    }
  }

  /** The actions of cell `c`, one per drone, indexed by identifier. */
  ghost predicate ActionRow(row: seq<Action>, c: Cell, n: nat)
  {
    |row| == n && forall i :: 0 <= i < n ==> row[i].id == i && row[i].cell == c
  }

  function Totals(row: seq<Action>): (t: seq<Positive>)
    reads row`totalSelections
    ensures |t| == |row| && forall i :: 0 <= i < |row| ==> t[i] == row[i].totalSelections
  {
    if row == [] then [] else Totals(row[..|row| - 1]) + [row[|row| - 1].totalSelections]
  }

  function Bounds(row: seq<Action>): (b: seq<real>)
    reads row`estimate
    ensures |b| == |row| && forall i :: 0 <= i < |row| ==> b[i] == row[i].estimate
  {
    if row == [] then [] else Bounds(row[..|row| - 1]) + [row[|row| - 1].estimate]
  }

  /** The bounds `b` of the drone itself and of its neighbours are the ones
      `est` gives; every other bound is still the one `b0` gives. */
  ghost predicate Refreshed(b: seq<real>, b0: seq<real>, est: seq<real>, self: DroneId, ns: seq<Peer>)
  {
    && |b| == |b0| && |b| == |est|
    && forall i :: 0 <= i < |b| ==> b[i] == if i == self || i in IdSet(ns) then est[i] else b0[i]
  }

  /** Refreshing the next neighbour's bound extends `Refreshed` by one. */
  lemma RefreshedStep(b: seq<real>, b0: seq<real>, est: seq<real>, self: DroneId, ns: seq<Peer>, i: nat)
    requires i < |ns| && ns[i].id < |b| && Refreshed(b, b0, est, self, ns[..i])
    ensures Refreshed(b[ns[i].id := est[ns[i].id]], b0, est, self, ns[..i + 1])
  {
    IdSetGrows(ns, i);
  }

  /** `m1` is `m0` with an entry for `c` added when it had none. */
  ghost predicate Grown<V>(m0: map<Cell, V>, m1: map<Cell, V>, c: Cell)
  {
    c in m1 && m1.Keys == m0.Keys + {c} && forall d :: d in m0 ==> m1[d] == m0[d]
  }

  /** The counts are `t0` with one more selection of `relay`. */
  ghost predicate Counted(row: seq<Action>, t0: seq<Positive>, relay: DroneId)
    reads row`totalSelections
  {
    |row| == |t0| && forall i :: 0 <= i < |row| ==> row[i].totalSelections == if i == relay then t0[i] + 1 else t0[i]
  }

  /** `[Action(drone, cell) for drone in drones]`. */
  method NewActionRow(c: Cell, n: nat) returns (row: seq<Action>)
    ensures ActionRow(row, c, n)
    ensures forall i :: 0 <= i < n ==> fresh(row[i])
    ensures Totals(row) == seq(n, _ => 1) && Bounds(row) == seq(n, _ => 0.0)
  {
    row := [];
    for d := 0 to n
      invariant ActionRow(row, c, d)
      invariant forall i :: 0 <= i < d ==> fresh(row[i]) && row[i].totalSelections == 1 && row[i].estimate == 0.0
    {
      var a := new Action(d, c);
      row := row + [a];
    }
  }

  // ---------------------------------------------------------------------
  // The routing object

  /** A ledger entry: the cell, the relay, the step of the decision and the
      relay's position then. */
  datatype Taken = Taken(state: Cell, chosen: DroneId, step: int, coords: Coords)

  /** What `relay_selection` ends with: a relay, or the `ValueError` that
      `math.log` raises for a step that is not positive. */
  datatype Selection = Chosen(relay: DroneId) | LogDomainError

  /** `reward_function`: the outcome scaled by how late in the packet's life
      the decision was taken and by how fast the packet arrived. */
  function Reward(actionStep: int, curStep: int, eventDuration: real, delay: int, outcome: int): real
    requires curStep != 0 && delay != 0
  {
    (actionStep as real / curStep as real) * (eventDuration / delay as real) * outcome as real
  }

  /** With positive steps, duration and delay the reward has the sign of the
      outcome, and a decision no later than now weighs at most
      `duration / delay` per unit of outcome. */
  lemma RewardSignAndSize(actionStep: int, curStep: int, eventDuration: real, delay: int, outcome: int)
    requires actionStep > 0 && curStep > 0 && eventDuration > 0.0 && delay > 0
    ensures Reward(actionStep, curStep, eventDuration, delay, outcome) > 0.0 <==> outcome > 0
    ensures Reward(actionStep, curStep, eventDuration, delay, outcome) < 0.0 <==> outcome < 0
    ensures actionStep <= curStep ==>
      Abs(Reward(actionStep, curStep, eventDuration, delay, outcome)) <= (eventDuration / delay as real) * Abs(outcome as real)
  {
    var w := actionStep as real / curStep as real;
    var v := eventDuration / delay as real;
    var o := outcome as real;
    PositiveProduct(w, v);
    var wv := w * v;
    assert Reward(actionStep, curStep, eventDuration, delay, outcome) == wv * o;
    SignOfProduct(wv, o);
    if actionStep <= curStep {
      assert w <= 1.0;
      MulMonotone(w, 1.0, v);
      MulMonotone(wv, v, Abs(o));
      AbsOfProduct(wv, o);
    }
  }

  lemma SignOfProduct(a: real, b: real)
    requires a > 0.0
    ensures a * b > 0.0 <==> b > 0.0
    ensures a * b < 0.0 <==> b < 0.0
  {
  }

  lemma AbsOfProduct(a: real, b: real)
    requires a > 0.0
    ensures Abs(a * b) == a * Abs(b)
  {
  }

  class UcbQLearningRouting {
    const drone: DroneId
    /** Drones in the simulation; their identifiers are 0 .. nDrones - 1. */
    const nDrones: nat

    /** Ledger: event id -> the decision taken for it. */
    var takenActions: map<EventId, Taken>
    /** Cell -> one Q-value per drone, indexed by identifier. */
    var qTable: map<Cell, seq<real>>
    /** Cell -> one `Action` per drone, indexed by identifier. */
    var ucbActions: map<Cell, seq<Action>>

    /** Rows have one entry per drone and the ledger refers to rows and
        drones that exist, so every lookup of the source succeeds. */
    ghost predicate Valid()
      reads this
    {
      && drone < nDrones
      && (forall c :: c in qTable ==> |qTable[c]| == nDrones)
      && (forall c :: c in ucbActions ==> ActionRow(ucbActions[c], c, nDrones))
      && (forall e :: e in takenActions ==> takenActions[e].state in qTable && takenActions[e].chosen < nDrones)
    }

    constructor (drone: DroneId, nDrones: nat)
      requires drone < nDrones
      ensures Valid()
      ensures this.drone == drone && this.nDrones == nDrones
      ensures takenActions == map[] && qTable == map[] && ucbActions == map[]
    {
      this.drone := drone;
      this.nDrones := nDrones;
      takenActions := map[];
      qTable := map[];
      ucbActions := map[];
    }

    /** The actions of a cell, none for a cell never visited. */
    function ActionsAt(c: Cell): seq<Action>
      reads this
    {
      if c in ucbActions then ucbActions[c] else []
    }

    /** `relay_selection`. `toCell` is the spatial discretiser, `draws` the
        `random.random()` values a new Q-row is made from, and `ln` and
        `sqrt` are `math.log` and `math.sqrt`. */
    method RelaySelection(neighbors: seq<Peer>, packet: Packet, selfCoords: Coords, curStep: int,
                          toCell: Coords -> Cell, draws: seq<real>, ln: real -> real, sqrt: real -> real)
      returns (r: Selection)
      requires Valid()
      requires Indexes(neighbors, nDrones)
      requires toCell(selfCoords) !in qTable ==> |draws| == nDrones && Sum(draws) > 0.0
      modifies this`qTable, this`ucbActions, this`takenActions
      modifies ActionsAt(toCell(selfCoords))`estimate, ActionsAt(toCell(selfCoords))`totalSelections
      ensures Valid()
      ensures var c := toCell(selfCoords);
        && qTable == WithRow(old(qTable), c, draws)
        && Grown(old(ucbActions), ucbActions, c)
        && (c !in old(ucbActions) ==> forall i :: 0 <= i < nDrones ==> fresh(ucbActions[c][i]))
      ensures r == LogDomainError <==> curStep < 1
      ensures var c := toCell(selfCoords);
        var t0 := if c in old(ucbActions) then old(Totals(ucbActions[c])) else seq(nDrones, _ => 1);
        var b0 := if c in old(ucbActions) then old(Bounds(ucbActions[c])) else seq(nDrones, _ => 0.0);
        && (r == LogDomainError ==>
              takenActions == old(takenActions) && Totals(ucbActions[c]) == t0 && Bounds(ucbActions[c]) == b0)
        && (r.Chosen? ==>
              var est := Estimates(qTable[c], t0, curStep, ln, sqrt);
              var p := UcbScan(neighbors, est, drone, selfCoords);
              && r.relay == p.relay
              && takenActions == old(takenActions)[packet.eventId := Taken(c, p.relay, curStep, p.coords)]
              && Counted(ucbActions[c], t0, p.relay)
              && Refreshed(Bounds(ucbActions[c]), b0, est, drone, neighbors))
    {
      var c := toCell(selfCoords);
      PrepareCell(c, draws);
      r := SelectOn(c, neighbors, packet.eventId, selfCoords, curStep, ln, sqrt);
    }

    /** The selection on a prepared cell: `math.log(cur_step)` fails before
        anything changes when the step is not positive; otherwise decide. */
    method SelectOn(c: Cell, neighbors: seq<Peer>, eventId: EventId, selfCoords: Coords, curStep: int,
                    ln: real -> real, sqrt: real -> real) returns (r: Selection)
      requires Valid() && c in qTable && c in ucbActions
      requires Indexes(neighbors, nDrones)
      modifies this`takenActions, ucbActions[c]`estimate, ucbActions[c]`totalSelections
      ensures Valid()
      ensures r == LogDomainError <==> curStep < 1
      ensures var t0 := old(Totals(ucbActions[c]));
        var b0 := old(Bounds(ucbActions[c]));
        && (r == LogDomainError ==>
              takenActions == old(takenActions) && Totals(ucbActions[c]) == t0 && Bounds(ucbActions[c]) == b0)
        && (r.Chosen? ==>
              var est := Estimates(qTable[c], t0, curStep, ln, sqrt);
              var p := UcbScan(neighbors, est, drone, selfCoords);
              && r.relay == p.relay
              && takenActions == old(takenActions)[eventId := Taken(c, p.relay, curStep, p.coords)]
              && Counted(ucbActions[c], t0, p.relay)
              && Refreshed(Bounds(ucbActions[c]), b0, est, drone, neighbors))
    {
      if curStep < 1 {
        return LogDomainError;
      }
      var relay := Decide(c, neighbors, eventId, selfCoords, curStep, ln, sqrt);
      r := Chosen(relay);
    }

    /** Make sure the current cell has a Q-row and a row of actions. */
    method PrepareCell(c: Cell, draws: seq<real>)
      requires Valid()
      requires c !in qTable ==> |draws| == nDrones && Sum(draws) > 0.0
      modifies this`qTable, this`ucbActions
      ensures Valid()
      ensures qTable == WithRow(old(qTable), c, draws)
      ensures Grown(old(ucbActions), ucbActions, c)
      ensures c !in old(ucbActions) ==> forall i :: 0 <= i < nDrones ==> fresh(ucbActions[c][i])
      ensures Totals(ucbActions[c]) ==
        if c in old(ucbActions) then old(Totals(ucbActions[c])) else seq(nDrones, _ => 1)
      ensures Bounds(ucbActions[c]) ==
        if c in old(ucbActions) then old(Bounds(ucbActions[c])) else seq(nDrones, _ => 0.0)
    {
      AddRow(c, draws);
      AddActions(c);
    }

    /** A cell seen for the first time gets one fresh action per drone. */
    method AddActions(c: Cell)
      requires Valid()
      modifies this`ucbActions
      ensures Valid()
      ensures Grown(old(ucbActions), ucbActions, c)
      ensures c !in old(ucbActions) ==> forall i :: 0 <= i < nDrones ==> fresh(ucbActions[c][i])
      ensures Totals(ucbActions[c]) ==
        if c in old(ucbActions) then old(Totals(ucbActions[c])) else seq(nDrones, _ => 1)
      ensures Bounds(ucbActions[c]) ==
        if c in old(ucbActions) then old(Bounds(ucbActions[c])) else seq(nDrones, _ => 0.0)
    {
      if c !in ucbActions {
        var row := NewActionRow(c, nDrones);
        ucbActions := ucbActions[c := row];
      }
    }

    /** A cell seen for the first time gets a Q-row of normalised draws. */
    method AddRow(c: Cell, draws: seq<real>)
      requires Valid()
      requires c !in qTable ==> |draws| == nDrones && Sum(draws) > 0.0
      modifies this`qTable
      ensures Valid()
      ensures qTable == WithRow(old(qTable), c, draws)
    {
      if c !in qTable {
        var values := draws;
        var sumOfValues := Sum(values);
        qTable := qTable[c := Scaled(values, sumOfValues)];
      }
    }

    /** Rank the candidates of a prepared cell, count the winner and record
        the choice in the ledger. */
    method Decide(c: Cell, neighbors: seq<Peer>, eventId: EventId, selfCoords: Coords, curStep: int,
                  ln: real -> real, sqrt: real -> real) returns (relay: DroneId)
      requires Valid() && c in qTable && c in ucbActions
      requires Indexes(neighbors, nDrones)
      modifies this`takenActions, ucbActions[c]`estimate, ucbActions[c]`totalSelections
      ensures Valid()
      ensures var t0 := old(Totals(ucbActions[c]));
        var est := Estimates(qTable[c], t0, curStep, ln, sqrt);
        var p := UcbScan(neighbors, est, drone, selfCoords);
        && relay == p.relay
        && takenActions == old(takenActions)[eventId := Taken(c, p.relay, curStep, p.coords)]
        && Counted(ucbActions[c], t0, p.relay)
        && Refreshed(Bounds(ucbActions[c]), old(Bounds(ucbActions[c])), est, drone, neighbors)
    {
      var row := ucbActions[c];
      ghost var t0 := Totals(row);
      ghost var b0 := Bounds(row);
      var p := RankCandidates(c, neighbors, selfCoords, curStep, ln, sqrt);
      assert Totals(row) == t0;
      ghost var est := Estimates(qTable[c], t0, curStep, ln, sqrt);
      Commit(c, p, row[p.relay], eventId, curStep);
      assert Refreshed(Bounds(row), b0, est, drone, neighbors);
      relay := p.relay;
    }

    /** The scan of `relay_selection`: refresh the bound of the drone itself
        and of every neighbour, keeping the first strictly largest. */
    method RankCandidates(c: Cell, neighbors: seq<Peer>, selfCoords: Coords, curStep: int,
                          ln: real -> real, sqrt: real -> real) returns (p: Pick)
      requires Valid() && c in qTable && c in ucbActions
      requires Indexes(neighbors, nDrones)
      modifies ucbActions[c]`estimate
      ensures var row := ucbActions[c];
        var est := Estimates(qTable[c], Totals(row), curStep, ln, sqrt);
        && p == UcbScan(neighbors, est, drone, selfCoords)
        && Refreshed(Bounds(row), old(Bounds(ucbActions[c])), est, drone, neighbors)
    {
      var row := ucbActions[c];
      var q := qTable[c];
      ghost var t0 := Totals(row);
      ghost var est := Estimates(q, t0, curStep, ln, sqrt);
      ghost var b0 := Bounds(row);
      var maxEstimate := RefreshBound(c, drone, row[drone], curStep, ln, sqrt, est);
      p := Pick(drone, selfCoords, maxEstimate);
      p := ScanNeighbours(c, neighbors, selfCoords, curStep, ln, sqrt, p, est, b0);
    }

    /** The neighbour loop of `relay_selection`, from the running best `p0`
        of the drone itself. */
    method ScanNeighbours(c: Cell, neighbors: seq<Peer>, selfCoords: Coords, curStep: int,
                          ln: real -> real, sqrt: real -> real, p0: Pick, ghost est: seq<real>, ghost b0: seq<real>)
      returns (p: Pick)
      requires Valid() && c in qTable && c in ucbActions
      requires Indexes(neighbors, nDrones)
      requires est == Estimates(qTable[c], Totals(ucbActions[c]), curStep, ln, sqrt)
      requires p0 == UcbScan([], est, drone, selfCoords)
      requires Refreshed(Bounds(ucbActions[c]), b0, est, drone, [])
      modifies ucbActions[c]`estimate
      ensures Totals(ucbActions[c]) == old(Totals(ucbActions[c]))
      ensures p == UcbScan(neighbors, est, drone, selfCoords)
      ensures Refreshed(Bounds(ucbActions[c]), b0, est, drone, neighbors)
    {
      var row := ucbActions[c];
      ghost var t0 := Totals(row);
      ghost var bs := Bounds(row);
      p := p0;
      var i := 0;
      while i < |neighbors|
        invariant 0 <= i <= |neighbors|
        invariant p == UcbScan(neighbors[..i], est, drone, selfCoords)
        invariant Totals(row) == t0 && Bounds(row) == bs
        invariant Refreshed(bs, b0, est, drone, neighbors[..i])
      {
        var n := neighbors[i];
        UcbScanStep(neighbors, est, drone, selfCoords, i);
        RefreshedStep(bs, b0, est, drone, neighbors, i);
        var e := RefreshBound(c, n.id, row[n.id], curStep, ln, sqrt, est);
        bs := bs[n.id := e];
        if e > p.top {
          p := Pick(n.id, n.coords, e);
        }
        i := i + 1;
      }
      assert neighbors[..i] == neighbors;
    }

    /** `update_estimate` on the action of drone `k` in cell `c`. */
    method RefreshBound(c: Cell, k: DroneId, action: Action, curStep: int, ln: real -> real, sqrt: real -> real,
                        ghost est: seq<real>)
      returns (e: real)
      requires Valid() && c in qTable && c in ucbActions && k < nDrones
      requires action == ucbActions[c][k]
      requires est == Estimates(qTable[c], Totals(ucbActions[c]), curStep, ln, sqrt)
      modifies action`estimate
      ensures Totals(ucbActions[c]) == old(Totals(ucbActions[c]))
      ensures e == est[k]
      ensures Bounds(ucbActions[c]) == old(Bounds(ucbActions[c]))[k := e]
    {
      e := action.UpdateEstimate(curStep, qTable[c][k], C, ln, sqrt);
    }

    /** Count the choice and record it in the ledger. */
    method Commit(c: Cell, p: Pick, action: Action, eventId: EventId, curStep: int)
      requires Valid() && c in qTable && c in ucbActions && p.relay < nDrones
      requires action == ucbActions[c][p.relay]
      modifies action`totalSelections, this`takenActions
      ensures Valid()
      ensures Counted(ucbActions[c], old(Totals(ucbActions[c])), p.relay)
      ensures takenActions == old(takenActions)[eventId := Taken(c, p.relay, curStep, p.coords)]
    {
      action.UpdateSelectionCount();
      takenActions := takenActions[eventId := Taken(c, p.relay, curStep, p.coords)];
    }

    /** `feedback`. `peer` is the routing object of the drone chosen for the
        event (this one when the drone kept the packet); a Q-row for the
        cell where the relay was is added to its table if missing, and only
        the recorded entry of this drone's own table is updated. */
    method Feedback(idEvent: EventId, delay: int, outcome: int, curStep: int, eventDuration: real,
                    peer: UcbQLearningRouting, toCell: Coords -> Cell, draws: seq<real>)
      requires Valid() && peer.Valid() && peer.nDrones == nDrones
      requires idEvent in takenActions ==>
        && peer.drone == takenActions[idEvent].chosen
        && curStep != 0 && delay != 0
        && (toCell(takenActions[idEvent].coords) !in peer.qTable ==> |draws| == nDrones && Sum(draws) > 0.0)
      modifies this`qTable, this`takenActions, peer`qTable
      ensures Valid() && peer.Valid()
      ensures takenActions == old(takenActions) - {idEvent}
      ensures idEvent !in old(takenActions) ==> qTable == old(qTable) && peer.qTable == old(peer.qTable)
      ensures idEvent in old(takenActions) ==>
        var t := old(takenActions)[idEvent];
        var next := toCell(t.coords);
        var chosenTable := WithRow(old(peer.qTable), next, draws);
        var own := if peer == this then chosenTable else old(qTable);
        var target := Reward(t.step, curStep, eventDuration, delay, outcome) + Gamma * SeqMax(chosenTable[next]);
        && (peer != this ==> peer.qTable == chosenTable)
        && qTable == own[t.state := own[t.state][t.chosen := TdStep(own[t.state][t.chosen], Alpha, target)]]
    {
      if idEvent in takenActions {
        var t := takenActions[idEvent];
        var next := toCell(t.coords);
        peer.AddRow(next, draws);
        var qsa := qTable[t.state][t.chosen];
        var reward := Reward(t.step, curStep, eventDuration, delay, outcome);
        var best := SeqMax(peer.qTable[next]);
        qTable := qTable[t.state := qTable[t.state][t.chosen := qsa + Alpha * (reward + Gamma * best - qsa)]];
        takenActions := takenActions - {idEvent};
      }
    }
  }
}
