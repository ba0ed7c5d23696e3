# Verified model of the DroNETwork routing policies

This project models, in Dafny, the decision core of the DroNETwork FANET
simulator. At every forwarding opportunity a drone picks which neighbour
(or itself) carries a packet on towards the depot. Four per-drone policies
are modelled, plus the data side of the plotting scripts.

- **Fully-Echoed Q-Routing** (`fully_echoed_q_routing.dfy`). It keeps a
  Q-vector of delivery-time estimates per neighbour and a ledger of
  decisions. It also keeps a ring buffer of the last ten Q-values and the
  simulated-annealing state (`k`, `T`, `f`, `T_est`, `T_max`, `eta_2`).
  The Hello / Data / ACK / Estimation message handlers form a small state
  machine. The routing object is a class whose methods update its fields.
- **Distance-Based Q-Learning** (`distance_based_q_learning_routing.dfy`).
  It is tabular Q-learning over (drone id, cell) states. Rows are created
  lazily with the optimistic value 5. A random warm-up is followed by a
  distance-weighted epsilon-greedy policy. The reward is an integer. One
  temporal-difference step is applied per ledger entry.
- **UCB Q-Learning** (`ucb_q_learning_routing.dfy`). It keeps per-cell
  Q-rows made from normalised random draws. Per-cell `Action` objects
  (a class) hold selection counts and upper confidence bounds. Feedback
  bootstraps from the chosen drone's own table, which is a second routing
  object passed in.
- **None routing** (`none_routing.dfy`): always keep the packet.
- **Data elaboration** (`data_elaboration.dfy`). Records are keyed by
  (drones, algorithm, seed), where the algorithm is the second dot-separated
  field of the enum name. Runs are grouped by (drones, algorithm), with the
  delivery ratio clamped to 1, and each group gets its mean and standard
  deviation.
- **Bar plots** (`barplot_split.dfy`). It covers the display names of the
  algorithms and the three parallel columns each plot's data frame is built
  from.

Shared entities live in `common.dfy`: identifiers, coordinates, packets,
peers, and the TD step all three learners apply. `ordered_dict.dfy` models
Python's insertion-ordered `dict`. The beacon table and every plotting
dictionary are iterated in that order.

The random draws are parameters of the operations: `random()`, the index
`choice` draws, and the `random.random()` values of a fresh UCB row. So are
`exp`, `math.log`, `math.sqrt`, `euclidean_distance`, `coord_to_cell` and
the drone's next waypoint. Properties that need laws of `ln` and `sqrt`
assume them through the predicate `UcbQLearning.Lawful`.

In these places the model follows what the code does:
- `relay_selection` of Fully-Echoed Q-Routing updates the temperature with
  the `f` of the previous step and only then recomputes `f`. The temperature
  is scaled by `f` first and clamped into `[1, k_max]` afterwards.
- The instability factor divides the nine successive differences of the
  ten-slot buffer by `H = 10`.
- The Distance-Based warm-up makes `n_drones + 1` random picks, because the
  counter test is `<=`.
- On an empty neighbour list, the Distance-Based and UCB policies return
  the drone itself, which the simulator treats as keeping the packet.
  Fully-Echoed Q-Routing fails on an empty list (see "Left out").

## Model

| member | source | states |
|---|---|---|
| Common.TdStepContracts | src/routing_algorithms/distance_based_q_learning_routing.py:58 | The update `q + rate·(target − q)` shared by the three learners leaves the distance to the target scaled by `1 − rate`. With a rate in [0, 1] the value never moves away from its target, and a value already at the target stays there. |
| PyDicts.Dict.Put | src/plots/data/data_elaboration.py:38 | Python `d[k] = v`: a new key goes to the end of the order, an existing key keeps its place and gets the new value. Well-formedness (distinct keys, order = key set) is preserved. |
| NoneRouting.RelaySelection | src/routing_algorithms/none_routing.py:15-23 | The result is `None` (keep the packet) for every neighbour list, empty or not, and every packet. It is a function, so nothing is modified. |
| FullyEchoedQRouting.FullyEchoedQLearningRouting.constructor | src/routing_algorithms/fully_echoed_q_routing.py:10-42 | The initial state: empty ledger, Q-vector and beacon table; counters 0; `T_est = T_max = 1`; `eta_2 = 0.8·0.3`; `k = 0`; `T = k_max = floor(ts·sim/3)`; `f = 1`; history ten 1s with index −1. |
| FullyEchoedQRouting.FullyEchoedQLearningRouting.DroneReception | src/routing_algorithms/fully_echoed_q_routing.py:50-136 | Dispatches the four message kinds. Only Hello changes the beacon table, and it changes nothing else. Only ACK touches the history. Data answers with an ACK, ACK answers with a broadcast Estimation, and Hello and Estimation send nothing. |
| FullyEchoedQRouting.FullyEchoedQLearningRouting.OnHello | src/routing_algorithms/fully_echoed_q_routing.py:53-55 | The sender's beacon replaces its stored one. A first beacon is appended to the order. |
| FullyEchoedQRouting.FullyEchoedQLearningRouting.OnData | src/routing_algorithms/fully_echoed_q_routing.py:64-88 | The fresh neighbours are learnt. The reply is an ACK to the sender carrying the reception step, the forwarding step, the queue time, and the minimum Q over the fresh neighbours (`Infinite` for none). |
| FullyEchoedQRouting.FullyEchoedQLearningRouting.OnAck | src/routing_algorithms/fully_echoed_q_routing.py:92-122 | `Q[src]` takes one step of rate 0.8 towards `3·tt·ts + qt·ts + estimate`, and the new value is written into the next history slot. The fresh neighbours are learnt, and the minimum Q is broadcast to them with the same queue and transmission times. |
| FullyEchoedQRouting.FullyEchoedQLearningRouting.OnEstimation | src/routing_algorithms/fully_echoed_q_routing.py:125-136 | An unknown sender first gets `distance/speed` from its beacon. Then `Q[src]` takes one step of rate `eta_2` towards `tt + qt + estimate`. The history is not touched. |
| FullyEchoedQRouting.FullyEchoedQLearningRouting.Feedback | src/routing_algorithms/fully_echoed_q_routing.py:139-165 | The ledger entry of the event is deleted if present, and nothing happens otherwise. Only the ledger may change, so the Q-vector is never touched, and the object stays well formed for the next selection. |
| FullyEchoedQRouting.FullyEchoedQLearningRouting.RelaySelection | src/routing_algorithms/fully_echoed_q_routing.py:168-212 | `k` rises by exactly 1, and `T` is computed from the new `k` and the previous `f`. The action is the annealing choice among the candidates and is stored under the packet's event id. It is a neighbour or the drone itself, and exactly one of the two counters rises by 1. Afterwards `f`, `T_est`, `T_max` and `eta_2` are recomputed from the history and the fresh neighbours. |
| FullyEchoedQRouting.FullyEchoedQLearningRouting.ChooseRelay | src/routing_algorithms/fully_echoed_q_routing.py:177-200 | The first half of a routing step: count the step, learn the listed neighbours, cool down, and select among the unvisited neighbours, or among all of them when every neighbour has carried the packet. The exploitation counter rises by 1 exactly when the choice exploits, and the exploration counter otherwise. |
| FullyEchoedQRouting.FullyEchoedQLearningRouting.FinishStep | src/routing_algorithms/fully_echoed_q_routing.py:203-210 | The decision is recorded under the event id, `f` is refreshed from the history, and the dynamic learning rate is recomputed. |
| FullyEchoedQRouting.FullyEchoedQLearningRouting.ActionSelection | src/routing_algorithms/fully_echoed_q_routing.py:220-236 | If the draw is `<= 1 − exp(−10/T)`, the result is the first candidate with the smallest Q and the exploitation counter rises. Otherwise it is entry `pick` of candidates + [self] and the exploration counter rises. |
| FullyEchoedQRouting.FirstMinimum | src/routing_algorithms/fully_echoed_q_routing.py:227-231 | The loop with strict `<` against a running best that starts at `inf` returns a candidate whose Q is the smallest. Every earlier candidate is strictly larger. |
| FullyEchoedQRouting.FirstMinimumUnique | src/routing_algorithms/fully_echoed_q_routing.py:227-231 | There is only one first minimum, so the exploitation choice is determined by the Q-values. |
| FullyEchoedQRouting.FullyEchoedQLearningRouting.ChosenIsNeighborOrSelf | src/routing_algorithms/fully_echoed_q_routing.py:197-200 | Whether it exploits or explores, the relay chosen is one of the neighbours or the drone itself. |
| FullyEchoedQRouting.Unvisited | src/routing_algorithms/fully_echoed_q_routing.py:187 | A drone is listed exactly when it is a neighbour and is not among the packet's hops. |
| FullyEchoedQRouting.CandidatesAvoidLoops | src/routing_algorithms/fully_echoed_q_routing.py:187-200 | If some neighbour has not carried the packet, no candidate has. If every neighbour has, all neighbours are candidates. |
| FullyEchoedQRouting.FullyEchoedQLearningRouting.EvaluateParameterF | src/routing_algorithms/fully_echoed_q_routing.py:240-251 | The accumulating loop sets `f` to the instability factor of the history buffer. |
| FullyEchoedQRouting.InstabilityFactor | src/routing_algorithms/fully_echoed_q_routing.py:240-251 | The factor always lies in [0.5, 10]. It equals the sum of the absolute successive differences divided by `H` whenever that quotient is already in range. |
| FullyEchoedQRouting.TotalVariationNonNegative | src/routing_algorithms/fully_echoed_q_routing.py:243-244 | The summed variation is never negative. |
| FullyEchoedQRouting.SteadyHistoryIsCalm | src/routing_algorithms/fully_echoed_q_routing.py:240-251 | A buffer holding one value throughout gives the smallest factor, 0.5. |
| FullyEchoedQRouting.FullyEchoedQLearningRouting.UpdateTemperature | src/routing_algorithms/fully_echoed_q_routing.py:255-269 | `T` becomes the base (1 past `k_max`, `k_max/k` before) scaled by `f`, then clamped into [1, `k_max`]. The invariant `T >= 1` is kept. |
| FullyEchoedQRouting.AnnealingBaseBounds | src/routing_algorithms/fully_echoed_q_routing.py:259-262 | With `k, k_max >= 1`, the base before scaling lies in [1, `k_max`]. |
| FullyEchoedQRouting.Temperature | src/routing_algorithms/fully_echoed_q_routing.py:255-269 | With `k_max >= 1` the temperature lies in [1, `k_max`], whatever `f` is. |
| FullyEchoedQRouting.TemperatureCools | src/routing_algorithms/fully_echoed_q_routing.py:255-269 | For a fixed non-negative `f`, the temperature never rises as the step count `k` grows. |
| FullyEchoedQRouting.FullyEchoedQLearningRouting.UpdateChangesHistory | src/routing_algorithms/fully_echoed_q_routing.py:275-277 | The index becomes `(index + 1) % H` and only that slot is overwritten, with the new Q-value. The buffer keeps length `H`, and the other slots are unchanged. |
| FullyEchoedQRouting.HistoryHoldsLastWrites | src/routing_algorithms/fully_echoed_q_routing.py:275-277 | After any sequence of writes, each of the last `H` values written is in the slot it was written to. The buffer really holds the last `H` updates. |
| FullyEchoedQRouting.FullyEchoedQLearningRouting.UpdateDynamicLearningRate | src/routing_algorithms/fully_echoed_q_routing.py:281-290 | The fresh neighbours are learnt. `T_est` is their minimum Q, `T_max` is `max(T_max, T_est)`, and `eta_2 = T_est/T_max·0.8·0.3`. |
| FullyEchoedQRouting.MaxTime | src/routing_algorithms/fully_echoed_q_routing.py:289 | `T_max` never decreases and is at least `T_est`. It is one of the two. |
| FullyEchoedQRouting.DynamicRateBounds | src/routing_algorithms/fully_echoed_q_routing.py:290 | For a finite non-negative `T_est`, `eta_2` is a number in [0, 0.8·0.3]. |
| FullyEchoedQRouting.FullyEchoedQLearningRouting.CheckNewNeighbors | src/routing_algorithms/fully_echoed_q_routing.py:293-296 | The loop leaves the Q-vector equal to `AddNewNeighbors` of the old one over the listed beacons. |
| FullyEchoedQRouting.AddNewNeighborsSpec | src/routing_algorithms/fully_echoed_q_routing.py:293-296 | Afterwards the known drones are the old ones plus the beacon senders, and no existing Q-value changes. |
| FullyEchoedQRouting.AddNewNeighborsFirstBeacon | src/routing_algorithms/fully_echoed_q_routing.py:293-296 | A sender without a Q-value gets `distance(beacon position, depot)/speed` from its first beacon in the list. |
| FullyEchoedQRouting.EstimateTimeToDepot | src/routing_algorithms/fully_echoed_q_routing.py:300-305 | The running minimum from `inf` is `Infinite` exactly for an empty list. Otherwise it is a Q-value of a listed drone that no listed drone's Q-value is below. |
| FullyEchoedQRouting.FullyEchoedQLearningRouting.GetOptNeighbors | src/routing_algorithms/fully_echoed_q_routing.py:308-316 | The scan returns the stored beacons not older than `current_ts − OLD_HELLO_PACKET`, in first-reception order. |
| FullyEchoedQRouting.FreshFromMembers | src/routing_algorithms/fully_echoed_q_routing.py:308-316 | A beacon is listed exactly when it is its sender's stored beacon and was created at or after the cut-off. |
| FullyEchoedQRouting.FreshFrom | src/routing_algorithms/fully_echoed_q_routing.py:313-315 | No listed beacon is older than the cut-off. |
| DistanceBasedQLearning.DistanceBasedQLearningRouting.constructor | src/routing_algorithms/distance_based_q_learning_routing.py:10-25 | The tables, tallies and ledger start empty, and the three counters start at 0. |
| DistanceBasedQLearning.DistanceBasedQLearningRouting.Feedback | src/routing_algorithms/distance_based_q_learning_routing.py:27-62 | For a recorded event only `q_table[state][action]` changes, by one TD step (alpha 0.3, gamma 0.8) towards reward + 0.8·max of the successor row. `q_updates` rises by 1 and the entry is deleted. An unknown id changes nothing. |
| DistanceBasedQLearning.DistanceBasedQLearningRouting.RelaySelection | src/routing_algorithms/distance_based_q_learning_routing.py:64-106 | State and successor get rows if unseen, and existing rows are untouched. While the counter is `<= n_drones` the pick is random and the counter rises. After that the pick is epsilon-greedy. With no neighbours or with the depot in range, neither counter changes. The greedy branch raises the exploitation counter only when its scan runs to the end, and the random branch raises only the exploration counter. `None` is recorded as the drone itself, the ledger holds (state, action, successor), and `state_actions[state][action]` rises by exactly 1. |
| DistanceBasedQLearning.DistanceBasedQLearningRouting.Choose | src/routing_algorithms/distance_based_q_learning_routing.py:73-82 | The current state gets a row if unseen. The choice is the random pick during the warm-up and the epsilon-greedy choice after it, and it is always a listed neighbour or `None`. After the warm-up, the counters change exactly as in `EpsilonGreedy`: neither changes, the exploitation counter rises only on a full scan, or the exploration counter rises. |
| DistanceBasedQLearning.DistanceBasedQLearningRouting.Record | src/routing_algorithms/distance_based_q_learning_routing.py:84-104 | The successor gets a row and a tally. `None` becomes the drone itself. The decision is stored under the event id and counted once. |
| DistanceBasedQLearning.DistanceBasedQLearningRouting.AddRow | src/routing_algorithms/distance_based_q_learning_routing.py:75-76 | An unseen state gets the optimistic row, and a known one is left alone. |
| DistanceBasedQLearning.DistanceBasedQLearningRouting.OpenTally | src/routing_algorithms/distance_based_q_learning_routing.py:88-89 | An unseen successor gets an empty tally. |
| DistanceBasedQLearning.DistanceBasedQLearningRouting.CountDecision | src/routing_algorithms/distance_based_q_learning_routing.py:98-104 | The tally of the decision is set or raised to match `Tally`. |
| DistanceBasedQLearning.FreshRow | src/routing_algorithms/distance_based_q_learning_routing.py:76 | A new row has a value for every drone of the swarm, and that value is 5. |
| DistanceBasedQLearning.WithRow | src/routing_algorithms/distance_based_q_learning_routing.py:75-76 | The state is added with a fresh row only if it was unseen. Every existing row is unchanged. |
| DistanceBasedQLearning.WithTally | src/routing_algorithms/distance_based_q_learning_routing.py:88-89 | Adding an empty tally changes no count. |
| DistanceBasedQLearning.Tally | src/routing_algorithms/distance_based_q_learning_routing.py:98-104 | The count of (state, action) rises by exactly 1, and every other count stays. |
| DistanceBasedQLearning.MaxValue | src/routing_algorithms/distance_based_q_learning_routing.py:55 | The result is a value of the row that no value of the row exceeds. |
| DistanceBasedQLearning.DistanceBasedQLearningRouting.EpsilonGreedy | src/routing_algorithms/distance_based_q_learning_routing.py:109-115 | Returns `None` with no neighbours or with the drone within its own range of the depot, and changes no counter then. For `p <= 0.9` it returns the greedy choice, otherwise the random pick, with the matching counter change. |
| DistanceBasedQLearning.EpsilonGreedyChoice | src/routing_algorithms/distance_based_q_learning_routing.py:109-115 | The result is `None` when there is no neighbour or the drone is near the depot. Any drone returned is a listed neighbour. |
| DistanceBasedQLearning.DistanceBasedQLearningRouting.DistanceGreedyPolicy | src/routing_algorithms/distance_based_q_learning_routing.py:120-134 | The loop returns exactly what the scan specification returns. The exploitation counter rises only when the scan runs to the end. |
| DistanceBasedQLearning.GreedyReturnsFirstNear | src/routing_algorithms/distance_based_q_learning_routing.py:123-127 | The first neighbour within its own range of the depot is returned, and later neighbours are not looked at. |
| DistanceBasedQLearning.GreedyPicksFirstMaximum | src/routing_algorithms/distance_based_q_learning_routing.py:128-132 | With no neighbour near the depot, the result is the first neighbour of largest `Q/(d/100)`. Every earlier one is strictly smaller. |
| DistanceBasedQLearning.FirstMaximumIndex | src/routing_algorithms/distance_based_q_learning_routing.py:128-132 | Gives the index of that first maximiser and its weight. |
| DistanceBasedQLearning.GreedyReturnsNeighbor | src/routing_algorithms/distance_based_q_learning_routing.py:120-134 | The greedy policy returns a drone exactly when the list is non-empty, and that drone is always in the list. |
| DistanceBasedQLearning.FoundIsNear | src/routing_algorithms/distance_based_q_learning_routing.py:126-127 | An early return is always a neighbour within its range of the depot. |
| DistanceBasedQLearning.DistanceBasedQLearningRouting.RandomPolicy | src/routing_algorithms/distance_based_q_learning_routing.py:138-140 | The exploration counter rises by 1. The result is neighbour `pick`, or `None` for the extra last slot. |
| DistanceBasedQLearning.Choice | src/routing_algorithms/distance_based_q_learning_routing.py:140 | `None` exactly for the last slot, and otherwise the neighbour at the drawn index. |
| DistanceBasedQLearning.WarmUpLength | src/routing_algorithms/distance_based_q_learning_routing.py:79-80 | From counter `c`, exactly `min(calls, n_drones + 1 − c)` calls use the random policy. So a fresh agent makes `n_drones + 1` warm-up picks. |
| DistanceBasedQLearning.Reward | src/routing_algorithms/distance_based_q_learning_routing.py:143-150 | The result is −2 for an expired packet, and at least 2 for a delivery with positive delay. |
| DistanceBasedQLearning.RewardOfDelivery | src/routing_algorithms/distance_based_q_learning_routing.py:150 | For a positive delay, `2 + floor(1000/delay)` equals `2 + 1000 div delay`. It is at least 3 within 1000 steps and exactly 2 after. |
| DistanceBasedQLearning.RewardAntitone | src/routing_algorithms/distance_based_q_learning_routing.py:150 | A later delivery never earns more. |
| DistanceBasedQLearning.SameState | src/routing_algorithms/distance_based_q_learning_routing.py:177-183 | Equality holds exactly when id and cell agree, and equal states have equal hashes (the hash uses the id only). |
| DistanceBasedQLearning.SuccessorEstimate | src/routing_algorithms/distance_based_q_learning_routing.py:166-172 | The id is kept and only the cell is replaced by the waypoint's cell. The successor equals the state exactly when the cells agree. |
| UcbQLearning.NormalizedRowIsDistribution | src/routing_algorithms/ucb_q_learning_routing.py:106-108 | A row made from draws in [0, 1) with a positive sum has every entry in [0, 1], and the entries sum to 1. |
| UcbQLearning.SumScaled | src/routing_algorithms/ucb_q_learning_routing.py:108 | Dividing every entry by `k` divides the sum by `k`. |
| UcbQLearning.WithRow | src/routing_algorithms/ucb_q_learning_routing.py:105-108 | An unseen cell gets the normalised row, and every existing row is unchanged. |
| UcbQLearning.SeqMax | src/routing_algorithms/ucb_q_learning_routing.py:77 | The result is an entry of the row that no entry exceeds. |
| UcbQLearning.EstimateAntitone | src/routing_algorithms/ucb_q_learning_routing.py:154 | For a fixed value and step `>= 1`, the bound never grows with the selection count. It strictly shrinks when the step is `> 1`. |
| UcbQLearning.Estimates | src/routing_algorithms/ucb_q_learning_routing.py:113-119 | The bound of every drone of a cell, as `update_estimate` computes it. |
| UcbQLearning.UcbPicksFirstMaximum | src/routing_algorithms/ucb_q_learning_routing.py:113-124 | Starting from the drone itself and replacing only on a strictly larger bound, the scan returns the first of [self] + neighbours with the largest bound. The result is the drone itself or a neighbour. |
| UcbQLearning.UcbMaximumIndex | src/routing_algorithms/ucb_q_learning_routing.py:117-124 | Gives the position of that first maximum, −1 for the drone itself. |
| UcbQLearning.Action.constructor | src/routing_algorithms/ucb_q_learning_routing.py:144-149 | A new action has count 1 and estimate 0. |
| UcbQLearning.Action.UpdateEstimate | src/routing_algorithms/ucb_q_learning_routing.py:153-155 | The estimate becomes `value + sqrt(c·ln(step)/count)`, and that value is returned. The count is never 0. |
| UcbQLearning.Action.UpdateSelectionCount | src/routing_algorithms/ucb_q_learning_routing.py:157-158 | The count rises by exactly 1. |
| UcbQLearning.NewActionRow | src/routing_algorithms/ucb_q_learning_routing.py:111 | The row has one fresh action per drone, indexed by id, each with count 1 and estimate 0. |
| UcbQLearning.RewardSignAndSize | src/routing_algorithms/ucb_q_learning_routing.py:136-138 | With positive steps, duration and delay, the reward has the sign of the outcome. If the action step is `<=` the current step, its size is at most `duration/delay·|outcome|`. |
| UcbQLearning.UcbQLearningRouting.constructor | src/routing_algorithms/ucb_q_learning_routing.py:18-22 | The ledger, Q-table and action table start empty. |
| UcbQLearning.UcbQLearningRouting.RelaySelection | src/routing_algorithms/ucb_q_learning_routing.py:85-134 | Afterwards both tables contain the current cell and no other row changes. Step < 1 is the `math.log` error. Then the ledger is unchanged, and the cell's counts and bounds are those it had, or 1 and 0 for a new cell. Otherwise the relay is the scan's first maximum, and the ledger holds (cell, relay, step, relay position). Exactly the relay's count rises by 1. The bounds of self and neighbours are refreshed, and every other bound is unchanged. |
| UcbQLearning.UcbQLearningRouting.SelectOn | src/routing_algorithms/ucb_q_learning_routing.py:113-133 | On a prepared cell, a step below 1 is the `math.log` error and changes no count, bound or ledger entry. Otherwise it is the outcome of `Decide`. |
| UcbQLearning.UcbQLearningRouting.PrepareCell | src/routing_algorithms/ucb_q_learning_routing.py:103-111 | An unseen cell gets a normalised Q-row and a fresh action row, with counts 1 and bounds 0. Existing rows, and their counts and bounds, are untouched. |
| UcbQLearning.UcbQLearningRouting.AddRow | src/routing_algorithms/ucb_q_learning_routing.py:105-108 | A cell without a Q-row gets the draws divided by their sum, and a known cell keeps its row. This is also the lazy row of `feedback`, lines 58-61. No other row changes, and every row keeps one entry per drone. |
| UcbQLearning.UcbQLearningRouting.AddActions | src/routing_algorithms/ucb_q_learning_routing.py:110-111 | A cell without actions gets a fresh `Action` per drone, each with count 1 and bound 0. Known rows, and the counts and bounds in them, are untouched. |
| UcbQLearning.UcbQLearningRouting.Decide | src/routing_algorithms/ucb_q_learning_routing.py:113-133 | Ranks, counts and records. The relay is the first maximum under the counts before the step, and only its count rises. The bounds of self and neighbours are refreshed, and every other bound keeps its value. |
| UcbQLearning.UcbQLearningRouting.RankCandidates | src/routing_algorithms/ucb_q_learning_routing.py:113-124 | Returns the scan's pick. The bound of self and of every neighbour becomes its estimate, and the bound of every other drone keeps its value. |
| UcbQLearning.UcbQLearningRouting.ScanNeighbours | src/routing_algorithms/ucb_q_learning_routing.py:117-124 | The neighbour loop ends with the scan's pick over all neighbours. Each neighbour's bound becomes its estimate, the other bounds keep their value, and counts are unchanged. |
| UcbQLearning.UcbQLearningRouting.RefreshBound | src/routing_algorithms/ucb_q_learning_routing.py:113-119 | Only the bound of the one drone changes, to its estimate under the current counts, and that value is returned. Counts are unchanged. |
| UcbQLearning.UcbScanStep | src/routing_algorithms/ucb_q_learning_routing.py:120-124 | One more neighbour replaces the running best exactly when its bound is strictly larger. |
| UcbQLearning.UcbQLearningRouting.Commit | src/routing_algorithms/ucb_q_learning_routing.py:126-133 | Exactly the chosen action's count rises by 1, and the ledger entry is written. |
| UcbQLearning.UcbQLearningRouting.Feedback | src/routing_algorithms/ucb_q_learning_routing.py:24-83 | For a recorded event, the chosen drone's table gains a row for the successor cell if it lacks one. Only `q_table[state][chosen]` of this drone changes, by one step (alpha 0.5, gamma 0.5) towards reward + 0.5·max of that row. The entry is deleted. An unknown id changes nothing. |
| DataElaboration.Fields | src/plots/data/data_elaboration.py:33 | `split(".")` gives at least one field, and no field contains a dot. |
| DataElaboration.JoinFields | src/plots/data/data_elaboration.py:33 | Joining the fields with dots gives back the string. |
| DataElaboration.FieldsOfJoin | src/plots/data/data_elaboration.py:33 | Splitting dot-free fields joined by dots gives back the fields. |
| DataElaboration.FieldsCount | src/plots/data/data_elaboration.py:33 | There is more than one field exactly when the string holds a dot. |
| DataElaboration.AlgorithmName | src/plots/data/data_elaboration.py:33 | Fails (the `IndexError`) exactly when the name has no dot. Otherwise the result has no dot. |
| DataElaboration.QualifiedName | src/plots/data/data_elaboration.py:33 | The stored algorithm of a dot-joined name is its second field. |
| DataElaboration.EnumMemberName | src/plots/data/data_elaboration.py:33 | "RoutingAlgorithm.FEQR" is stored as "FEQR". |
| DataElaboration.ReadRecords | src/plots/data/data_elaboration.py:28-38 | The per-record loop over decoded records yields the table `Collected` specifies, or the failure. |
| DataElaboration.CollectedValid | src/plots/data/data_elaboration.py:38 | The table read is a well-formed ordered dictionary. |
| DataElaboration.CollectedFails | src/plots/data/data_elaboration.py:33 | Reading fails exactly when some record's algorithm has no dot. |
| DataElaboration.LastIndex | src/plots/data/data_elaboration.py:38 | The result is the last record carrying the key, or −1 if none does. |
| DataElaboration.FirstIndex | src/plots/data/data_elaboration.py:38 | The result is the first record carrying the key, or −1 if none does. |
| DataElaboration.FirstSeenOrder | src/plots/data/data_elaboration.py:38 | The table's keys are listed in the order of their first record. A key read again keeps its first place. |
| DataElaboration.LastRecordWins | src/plots/data/data_elaboration.py:38 | A key is in the table exactly when some record carries it, and it holds the metrics of the last such record. A later line overwrites an earlier one. |
| DataElaboration.Clamp | src/plots/data/data_elaboration.py:66-67 | A ratio above 1 becomes 1, and a ratio `<= 1` passes unchanged. |
| DataElaboration.AddRun | src/plots/data/data_elaboration.py:68-75 | One pass of the grouping loop keeps the three dictionaries listing the same settings in the same order. |
| DataElaboration.Grouped | src/plots/data/data_elaboration.py:64-75 | The grouping of any run sequence keeps the three dictionaries aligned. |
| DataElaboration.GroupBySetting | src/plots/data/data_elaboration.py:64-75 | The loop builds exactly `Grouped` of the table's keys in order. |
| DataElaboration.GroupedConsistent | src/plots/data/data_elaboration.py:64-75 | The three dictionaries have the same settings in the same order, and each setting has non-empty lists of equal length. |
| DataElaboration.GroupContents | src/plots/data/data_elaboration.py:64-75 | A setting is present exactly when some run has it. Its lists are that setting's times, clamped ratios and relay counts, one per run, in visiting order. |
| DataElaboration.TotalIsRunCount | src/plots/data/data_elaboration.py:64-75 | In each dictionary the list lengths sum to the number of runs. |
| DataElaboration.MeanAtMost | src/plots/data/data_elaboration.py:85 | A mean of values bounded above stays under the bound. |
| DataElaboration.VarianceNonNegative | src/plots/data/data_elaboration.py:86 | The mean squared deviation that `std` takes the root of is never negative. |
| DataElaboration.ConstantStdIsZero | src/plots/data/data_elaboration.py:85-86 | The runs of a setting that all took the same value have that value as their mean and, with `sqrt(0) = 0`, a standard deviation of 0. |
| DataElaboration.Summarize | src/plots/data/data_elaboration.py:81-86 | The summary loop stores, for each setting of `dict_times` in order, the three means and the three standard deviations. |
| DataElaboration.TabulateOrder | src/plots/data/data_elaboration.py:81-86 | Distinct settings are stored in the order visited, and the result is well formed. |
| DataElaboration.TabulateEntries | src/plots/data/data_elaboration.py:81-86 | Exactly the visited settings are stored, each under its own statistic. |
| DataElaboration.SummariesKeyedLikeTimes | src/plots/data/data_elaboration.py:81-86 | `mean_dict` and `std_dict` have exactly the keys of `dict_times`, in its order. |
| DataElaboration.MeanRatioAtMostOne | src/plots/data/data_elaboration.py:66-85 | Because ratios are clamped, no setting's mean delivery ratio exceeds 1. |
| DataElaboration.ComputeDataAvgStd | src/plots/data/data_elaboration.py:44-91 | The five results are the grouping of the table, which is consistent, and the mean and standard-deviation tables over its settings. |
| BarplotSplit.RenamedAlways | src/plots/barplot_split.py:7-20 | "GEO" becomes "C2S", "RND" becomes "Random" and "NONE" becomes "None", whatever `long_parse` is. |
| BarplotSplit.LongNamesOnlyWhenAsked | src/plots/barplot_split.py:11-18 | FEQR, QL, UCBQL and DBQL get their long names with `long_parse`, and are unchanged without it. |
| BarplotSplit.ShortFormKeepsAllButThree | src/plots/barplot_split.py:6-21 | Without `long_parse`, a name is kept exactly when it is not GEO, RND or NONE. |
| BarplotSplit.UnknownKept | src/plots/barplot_split.py:21 | A name that is none of the seven known ones is returned unchanged in both modes. |
| BarplotSplit.RowsOf | src/plots/barplot_split.py:35-38 | One row per value of a setting's list, each with the setting's drone count and short algorithm name. |
| BarplotSplit.BuildFrame | src/plots/barplot_split.py:32-38 | The nested loops build the frame `Flatten` specifies, setting by setting in dictionary order. The same loops appear at lines 61-67 and 90-96. |
| BarplotSplit.AddRows | src/plots/barplot_split.py:35-38 | The inner loop appends exactly the rows of one setting. |
| BarplotSplit.FrameLockstep | src/plots/barplot_split.py:32-38 | The three columns have equal length: the sum of the list lengths. |
| BarplotSplit.RowPosition | src/plots/barplot_split.py:34-38 | Value `j` of the `i`-th setting is the row after all rows of earlier settings. Its "Algorithm" entry is `parse_algorithm_name(algo, False)` and its drone entry is the setting's `n`. |
| BarplotSplit.RowPerRun | src/plots/barplot_split.py:32-38 | Fed with `dict_times`, `dict_ratios` or `dict_relays`, each plot has exactly one row per run. |

## Left out

- Message transport and drone-buffer side effects are not modelled: unicast and broadcast, `accept_packets`, `remove_packets`, `buffer_length`, `no_transmission`, `move_routing`, and the reset of the received packet's `queue_time` to 0 in the Data handler. They belong to base classes and entity modules that are not part of this model. The handlers return the message they would send instead.
- Random draws, `exp`, `math.log`, `math.sqrt`, `euclidean_distance`, `coord_to_cell` and `next_target` are parameters. Distributions and seeding are not modelled.
- IEEE floating point is not modelled; reals are exact. `inf` is modelled as `Time.Infinite` and `inf/inf` as `Rate.NaN`. Arithmetic on an infinite estimate inside an ACK or Estimation update is excluded by precondition. Normalisation round-off is not represented.
- `numpy.mean` and `numpy.std` are modelled as the exact mean and the population standard deviation, with the square root as a parameter.
- File listing, JSON decoding and file reading in `read_json_directory` are left out. The model starts from decoded records in reading order. Python set and directory order are not modelled.
- All plotting, the pandas data frame, the styling and file saving in `barplot_split.py` are left out, as are `config.py` and `plot_data.py`.
- FullyEchoedQRouting.FullyEchoedQLearningRouting.RelaySelection: requires a non-empty neighbour list. With none, the exploitation branch leaves `action` unbound and Python raises. The exploration branch would instead return the drone itself through `choice([self.drone])`, so the precondition also excludes that path, which does not fail.
- FullyEchoedQRouting.FullyEchoedQLearningRouting.constructor: requires `floor(TS_DURATION·SIM_DURATION/3) >= 1`, and `Valid` keeps `k_max >= 1`. The source accepts `k_max = 0`. The temperature is then clamped to 0, and `exp(-10/T)` in `action_selection` raises `ZeroDivisionError` on the first selection.
- FullyEchoedQRouting.Unvisited: lists the unvisited neighbours in neighbour order, whereas the source goes through a Python set, whose order is arbitrary. The first-minimum choice among equal Q-values can therefore differ.
- FullyEchoedQRouting.FullyEchoedQLearningRouting.DroneReception: an ACK requires the sender to have a Q-value and a finite estimate, as the source's `+=` would otherwise fail or produce `inf`. An Estimation requires a stored beacon or Q-value for the sender and a numeric `eta_2`.
- DistanceBasedQLearning.DistanceBasedQLearningRouting.Feedback: a delivered outcome with delay 0 is excluded by precondition, because Python raises `ZeroDivisionError`.
- DistanceBasedQLearning.DistanceBasedQLearningRouting.RelaySelection: neighbours are required to be drones of the swarm, because the source's Q-row lookup fails otherwise.
- UcbQLearning.UcbQLearningRouting.RelaySelection: the `opt_neighbors is not []` test is always true, so only the taken branch is modelled. A fresh row requires a positive sum of draws, since an all-zero draw divides by zero. `math.log` of a step below 1 is the `LogDomainError` result, and the row initialisation done before it is kept.
- UcbQLearning.UcbQLearningRouting.Feedback: the chosen drone's routing object is a parameter (`peer`), which may be this object itself. Its reward requires a non-zero step and delay.
- UcbQLearning.Action: `__hash__` and `__eq__` are not modelled. Actions are only ever reached by index in a row, never used as dictionary keys.
- The `State.__str__` and `State.copy` helpers are not modelled. The successor is built as a new value.
- The three `barplot_*` builders differ only in the column name, so one method, `BarplotSplit.BuildFrame`, models all three.
