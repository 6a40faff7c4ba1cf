# MoPlaT agent decision pipeline, in Dafny

MoPlaT is a crowd simulation built on MASON. In it, agents perceive their
neighbours, plan a velocity and move in two phases per time step. This
project models its core:

- the agent's perception pipeline (`RVOAgent.SenseThink.determineInitialLists`
  with `assignDistanceScore`), in which the sensed neighbours are scored,
  ranked, de-clustered and cut at an information budget;
- the two-phase life cycle `SenseThink.step` / `Act.step`, with the goal test,
  the preferred velocity, the expectancy rule of pattern-based motion and
  dead reckoning;
- waypoint selection over a road map (`determinePrefVelocity`, `tryWeakTest`);
- the obstacle world (`RVOSpace`): building vertex rings in a fixed winding
  order, line-of-sight, the sensing queries and position updates;
- the acceleration-bounded sampling planner `RVO_1_WithAccel.calculateVelocity`;
- the end-of-run predicate `WrapUp.step`.

Geometry is over `real`. Square root, `expm1`, `acos`, `cos`, `sin`,
`Vector2d.angle`, `Geometry.leftOf`, `Geometry.lineSegmentIntersectionTest`
and `Geometry.angleBetweenWSign` are fields of a `Numerics` record, passed in
as uninterpreted functions. A lemma that needs square-root facts requires
`SqrtSoundAt` (one argument) or `SqrtSound` (all arguments). A single length
compared against a bound is decided exactly on squares (`WithinLength`,
`ShorterThan`), and lemmas tie this to the square-root distance.
`PropertySet`'s switches and constants are a `Settings` value.

Modules, in dependency order:

| file | module | source |
|---|---|---|
| wrappers.dfy | Wrappers | `Option` (null) |
| geometry.dfy | Geometry | `Vector2d`/`Point2d` arithmetic, numerics |
| settings.dfy | Settings | `PropertySet` (MODEL, INFOPROCESSING, LATTICEMODEL, TIMESTEP), `RADIUS`, `INFO_LIMIT`, `SENSOR_RANGE` |
| scoring.dfy | Scoring | `assignDistanceScore` |
| ranking.dfy | Ranking | first pass of `determineInitialLists` as functions |
| clustering.dfy | Clustering | second pass, as written and corrected |
| budget.dfy | Budget | third pass (budget cut) |
| perception.dfy | Perception | `determineInitialLists` with its loops |
| environment.dfy | Environment | `RVOSpace` |
| navigation.dfy | Navigation | `getFinalGoal`, `determinePrefVelocity`, `tryWeakTest` |
| sampling.dfy | Sampling | `RVO_1_WithAccel.calculateVelocity` |
| wrapup.dfy | Wrapup | `WrapUp.step` |
| agents.dfy | Agents | `RVOAgent` state, `SenseThink`, `Act` |

`assignDistanceScore`'s angle ramp `8.1(3a - π)/π + 0.1` runs from 0.1 up
to 2.8 on [π/3, 4π/9), so scores are bounded by 2.8 (`Scoring.AngleFactor`,
`Scoring.DistanceScore`).

Two operations are modelled both as written and corrected (see
"## Findings"): the cluster pass of `determineInitialLists` and the winding
sum of `makeRightOrder`. The rest of the model (perception, SenseThink,
obstacle building) uses the corrected versions.

## Model

| member | source | states |
|---|---|---|
| Geometry.NormalizeIsUnit | src/agent/RVOAgent.java:903-906 | normalising a vector of non-zero length gives a unit vector |
| Geometry.WithinLengthIsLength | src/environment/RVOSpace.java:206-209 | the exact squared test `|v| <= b` agrees with the square-root length |
| Geometry.ShorterThanIsLength | src/agent/RVOAgent.java:253 | the exact squared test `|v| < b` agrees with the square-root length |
| Scoring.DistanceFactor | src/agent/RVOAgent.java:686 | the distance factor is clamped into [0.1, 1.0], and is 1.0 at zero gap |
| Scoring.AngleFactor | src/agent/RVOAgent.java:688-707 | the angle factor is 0.1 when the neighbour lies behind the goal direction, and always in [0.1, 2.8) |
| Scoring.DistanceScore | src/agent/RVOAgent.java:679-715 | a negative surface gap scores exactly 1.5; scoring fails (null goal) exactly when the gap is non-negative and there is no goal; every score is in [0.01, 2.8) |
| Scoring.ProductBounds | src/agent/RVOAgent.java:714 | the product of the two factors lies in [0.01, 2.8) |
| Scoring.BehindScoresLow | src/agent/RVOAgent.java:690-693 | a neighbour behind the goal direction scores its distance factor times 0.1, at most 0.1 |
| Scoring.ScoreAll | src/agent/RVOAgent.java:586-592 | all sensed agents scored in bag order; fails exactly when one score fails |
| Ranking.Insert | src/agent/RVOAgent.java:611-612 | `List.add(j, x)`: x at j, entries before unchanged, entries after shifted by one |
| Ranking.InsertMultiset | src/agent/RVOAgent.java:611-612 | inserting adds exactly that element |
| Ranking.Place | src/agent/RVOAgent.java:598-646 | the scan's decision: inserted at the first position where it beats the entry (higher score; on ties the velocity-dot rule or the smaller clearance), else appended; dropped exactly when an entry before that position matches the observer's id or the same position and radius |
| Ranking.InsertOneSorted | src/agent/RVOAgent.java:598-646 | inserting one candidate keeps the score list non-increasing |
| Ranking.InsertOnePairs | src/agent/RVOAgent.java:598-646 | inserting adds exactly the candidate with its own score, or nothing |
| Ranking.InsertOneCovers | src/agent/RVOAgent.java:598-607 | no entry is lost, and the candidate is either the observer or represented by an entry at its position with its radius |
| Ranking.RankAllSorted | src/agent/RVOAgent.java:584-647 | after the insertion pass the score list is non-increasing |
| Ranking.RankAllPairs | src/agent/RVOAgent.java:584-647 | after the insertion pass every entry is a sensed agent with its own score (a sub-multiset of the bag) |
| Ranking.RankAllCovers | src/agent/RVOAgent.java:584-647 | every sensed agent other than the observer is represented at its position with its radius |
| Clustering.AbsorbsIsDistance | src/agent/RVOAgent.java:654-656 | the exact absorb test is `dist(c, e) + r_e <= r_c` |
| Clustering.AbsorbsItself | src/agent/RVOAgent.java:656 | a cluster lies inside its own disc |
| Clustering.Delete | src/agent/RVOAgent.java:657-658 | `List.remove(k)`: length one less, entries before kept, entries after shifted down |
| Clustering.ClusterAsWrittenTracks | src/agent/RVOAgent.java:648-664 | the pass as written keeps a subsequence of the list, and every removed entry lies inside some cluster entry |
| Clustering.ClusterTracks | src/agent/RVOAgent.java:648-664 | the corrected pass keeps an order-preserving subsequence of the parallel lists, and every removed entry lies inside a different cluster entry (radius > 0.16) |
| Clustering.ClusterSorted | src/agent/RVOAgent.java:648-664 | the cluster pass keeps the scores non-increasing |
| Clustering.ClusterAsWrittenDropsCluster | src/agent/RVOAgent.java:651-660 | on [small agent, cluster around it] the pass as written leaves nothing; the corrected pass keeps the cluster |
| Budget.SumAppend | src/agent/RVOAgent.java:668 | the running sum grows by the added score |
| Budget.CutFrom | src/agent/RVOAgent.java:665-672 | the cut index is the first index whose running sum reaches INFO_LIMIT, or the length |
| Budget.TruncatePrefix | src/agent/RVOAgent.java:665-676 | the kept agents are a prefix: k+1 entries, where k is the first index whose running sum reaches INFO_LIMIT; all entries when no sum before the last reaches it |
| Budget.TruncateUnderBudget | src/agent/RVOAgent.java:665-676 | every kept entry but the last has a running sum below INFO_LIMIT |
| Budget.TruncateCapacity | src/agent/RVOAgent.java:665-676 | with scores of at least 0.01, fewer than 100·INFO_LIMIT entries are kept before the last |
| Perception.Perceive | src/agent/RVOAgent.java:503-506 | the list that replaces the sensed bag, with the corrected cluster pass; it fails exactly when a score fails |
| Perception.PerceiveOrdered | src/agent/RVOAgent.java:503-506 | the perceived list holds sensed agents only, in non-increasing score order |
| Perception.DetermineInitialLists | src/agent/RVOAgent.java:584-677 | the three in-place passes, with the corrected cluster loop, compute Perceive |
| Perception.InsertionPass | src/agent/RVOAgent.java:586-647 | the first loop computes the ranked lists, or fails when a score fails |
| Perception.InsertCandidate | src/agent/RVOAgent.java:593-646 | the inner scan inserts the candidate where Place says |
| Perception.ClusterPass | src/agent/RVOAgent.java:648-664 | the second loop computes the corrected cluster pass |
| Perception.SweepLoop | src/agent/RVOAgent.java:650-662 | the inner loop for one cluster removes every other entry inside it, moving the cluster index down with each removal in front of it, as the corrected sweep does |
| Perception.TruncationPass | src/agent/RVOAgent.java:665-676 | the last two loops compute the budget cut |
| Perception.CutLoop | src/agent/RVOAgent.java:665-672 | the accumulating loop stops at the cut index |
| Perception.RemoveLoop | src/agent/RVOAgent.java:673-676 | agents are cut to the prefix up to the cut index; the score list keeps the entries before the cut plus the last input score |
| Environment.NextIndex | src/environment/RVOSpace.java:122-128 | the next link stays inside the ring |
| Environment.PrevIndex | src/environment/RVOSpace.java:116-120 | the prev link stays inside the ring |
| Environment.RingIndicesModular | src/environment/RVOSpace.java:115-128 | next(i) = (i+1) mod n and prev(i) = (i-1+n) mod n |
| Environment.RingIndices | src/environment/RVOSpace.java:115-128 | prev(next(i)) = i and next(prev(i)) = i; the last vertex is linked to the first |
| Environment.RecordLinks | src/environment/RVOSpace.java:115-137 | a record links to its ring neighbours, and its convex flag is true for two vertices, else leftOf(prev, this, next) |
| Environment.RingLinked | src/environment/RVOSpace.java:115-139 | appended rings are well linked, and each record's links and convex flag are as built |
| Environment.RingRecords | src/environment/RVOSpace.java:110-143 | the appended records are exactly the ring's records at their offset, and the whole list stays well linked |
| Environment.EdgeTermFlip | src/environment/RVOSpace.java:252 | an edge term changes sign when the edge is reversed |
| Environment.WindingSumReverse | src/environment/RVOSpace.java:245-254 | reversing the vertices negates the winding sum |
| Environment.RightOrderWinds | src/environment/RVOSpace.java:242-267 | the corrected order is the input or its reverse, has the same multiset of vertices, and has a negative winding sum unless the input's sum is zero |
| Environment.Reverse | src/environment/RVOSpace.java:261 | `Collections.reverse`: element i goes to position n-1-i |
| Environment.ReverseMultiset | src/environment/RVOSpace.java:261 | reversing keeps the elements |
| Environment.SmallTermsVanish | src/environment/RVOSpace.java:244-252 | with the sum held in an `int`, terms smaller than 1 in magnitude add nothing |
| Environment.RightOrderAsWrittenReversesSmallSquare | src/environment/RVOSpace.java:244-262 | a 0.5-square already in order (sum -0.5) is reversed as written, giving the wrong winding; the corrected order keeps it |
| Environment.VisibleFromAt | src/environment/RVOSpace.java:230-236 | the scan from record i passes exactly when no later edge crosses the segment |
| Environment.VisibleFrom | src/environment/RVOSpace.java:227-237 | not visible exactly when some record's edge (point, next.point) crosses the segment position-goal; visible when the list is empty |
| Environment.VisibleFromAppend | src/environment/RVOSpace.java:227-237 | adding obstacles can only block more |
| Environment.WithinDistanceIsDistance | src/environment/RVOSpace.java:206-209 | a key is returned exactly when its square-root distance is within the radius |
| Environment.WithinDistanceMonotonic | src/environment/RVOSpace.java:206-209 | a larger radius returns more |
| Environment.Space.SenseNeighbours | src/environment/RVOSpace.java:167-169 | the sensed agents are those within SENSOR_RANGE × RADIUS of the position |
| Environment.Space.SenseObstacles | src/environment/RVOSpace.java:211-213 | the sensed obstacle entries are those within SENSOR_RANGE × RADIUS of the position |
| Environment.Space.UpdatePositionOnMap | src/environment/RVOSpace.java:158-165 | the agent's location becomes (x, y), and so does its device's when it has one; nothing else changes |
| Environment.Space.MakeRightOrder | src/environment/RVOSpace.java:242-267 | the accumulating loop and the reversal compute the corrected order |
| Environment.Space.AddNewObstacle | src/environment/RVOSpace.java:100-156 | RVO2/SocialForce: exactly n ring records appended in the reordered vertex order, earlier entries unchanged, each registered at its own point, the list stays well linked; other models: the obstacle is stored at each vertex in turn (so at the last one); The vertices are put in the corrected (exact-sum) winding order. |
| Environment.Space.AppendRing | src/environment/RVOSpace.java:109-143 | the stored list is the old list followed by the ring of the reordered vertices |
| Environment.Space.AppendRecords | src/environment/RVOSpace.java:115-143 | the loop appends record i and registers it at its point |
| Environment.Space.StoreWhole | src/environment/RVOSpace.java:145-153 | the for-each loop stores the whole obstacle at each vertex |
| Navigation.FinalGoal | src/agent/RVOAgent.java:885-888 | the final goal exists exactly when the last group is non-empty, and is a waypoint of that group |
| Navigation.Probes | src/agent/RVOAgent.java:900-914 | two lateral probes in the strong test, the position alone in the weak test |
| Navigation.ProbesBesideAgent | src/agent/RVOAgent.java:900-914 | the probes lie at RADIUS on either side of the position, perpendicular to the velocity |
| Navigation.NearestIndexIsNearest | src/agent/RVOAgent.java:898-921 | the chosen waypoint passes the test and is strictly nearest, the first one on ties; none is chosen exactly when no passing waypoint is nearer than Double.MAX_VALUE |
| Navigation.SelectFromIsFirst | src/agent/RVOAgent.java:896-934 | groups are scanned from the last down; the first group with a choice wins |
| Navigation.SelectIsNearest | src/agent/RVOAgent.java:896-934 | the selected waypoint passes, is nearest in its group, and every later group has nothing to offer |
| Navigation.SelectNone | src/agent/RVOAgent.java:896-934 | nothing is selected exactly when no group has a passing waypoint nearer than Double.MAX_VALUE |
| Navigation.PrefDirectionFallback | src/agent/RVOAgent.java:894-981 | the strong test is tried first, then the weak one; no waypoint exactly when all groups fail both, and then the direction is zero |
| Navigation.PrefDirectionUnitOrZero | src/agent/RVOAgent.java:924-976 | the direction is a unit vector, or zero when there is no waypoint or the waypoint is the position |
| Navigation.NearestInGroup | src/agent/RVOAgent.java:897-921 | the inner loop with minDistance computes the nearest passing waypoint |
| Navigation.ScanGroups | src/agent/RVOAgent.java:896-934 | the outer loop with its break computes the first group's choice |
| Sampling.Candidates | src/motionPlanners/rvo1/RVO_1_WithAccel.java:83-88 | one candidate per angle and magnitude |
| Sampling.CandidatesOrder | src/motionPlanners/rvo1/RVO_1_WithAccel.java:83-88 | candidates are in angle-major, magnitude-minor order: index a·|m|+m is current + mag_m·(cos a, sin a) |
| Sampling.Baseline | src/motionPlanners/rvo1/RVO_1_WithAccel.java:61-76 | the baseline selects the current velocity, with no candidate chosen |
| Sampling.Calculated | src/motionPlanners/rvo1/RVO_1_WithAccel.java:61-114 | with no objects around, the result is exactly the current velocity |
| Sampling.FoldAppend | src/motionPlanners/rvo1/RVO_1_WithAccel.java:83-112 | one more candidate is one more step of the scan |
| Sampling.FoldSelects | src/motionPlanners/rvo1/RVO_1_WithAccel.java:89-110 | the scan keeps its selection, or selects an admitted candidate with its own penalty |
| Sampling.FoldMinimal | src/motionPlanners/rvo1/RVO_1_WithAccel.java:104-110 | the final minimum is below or equal to the start's and to every admitted candidate's penalty |
| Sampling.FoldFirstWins | src/motionPlanners/rvo1/RVO_1_WithAccel.java:106 | with strict `<`, a candidate wins only by beating the baseline strictly and every earlier admitted candidate |
| Sampling.CalculatedSelects | src/motionPlanners/rvo1/RVO_1_WithAccel.java:61-112 | the result is the current velocity or an admitted candidate of length at most maxSpeed |
| Sampling.CalculatedOptimal | src/motionPlanners/rvo1/RVO_1_WithAccel.java:63-112 | the selected penalty is at most the baseline's and every admitted candidate's; equal-penalty candidates lose to the baseline and to earlier candidates |
| Sampling.RVO1WithAccel.CalculateVelocity | src/motionPlanners/rvo1/RVO_1_WithAccel.java:48-116 | the nested loops compute the fold over the candidates; the collision flag read by each candidate is the one the previous time-to-collision call left |
| Wrapup.AnyInside | src/app/WrapUp.java:38-45 | some agent lies strictly inside (0, worldX) × (0, worldY) |
| Wrapup.ShouldKill | src/app/WrapUp.java:31-47 | kill exactly when the lattice model is off or the lattice is empty, and no agent is strictly inside; so an empty agent list kills, and a boundary agent counts as outside |
| Agents.Wrap32 | src/agent/RVOAgent.java:877 | Java int arithmetic: the result is an int, and an int is unchanged |
| Agents.HashCodeMatchesEquals | src/agent/RVOAgent.java:860-879 | for int ids, equal hash codes exactly when equal ids, which is what equals compares |
| Agents.FindById | src/agent/RVOAgent.java:478-484 | the first agent with the id; null exactly when no agent has it |
| Agents.GetAgentWithId | src/agent/RVOAgent.java:478-484 | the for-each loop with early return computes FindById |
| Agents.CommitmentFor | src/agent/RVOAgent.java:430-445 | 1 gives LOW, 3 gives HIGH, anything else MID |
| Agents.GoalReachedIsDistance | src/agent/RVOAgent.java:253 | outside pattern-based motion, reached exactly when the distance is below RADIUS |
| Agents.GoalReachedHorizontally | src/agent/RVOAgent.java:250-253 | within RADIUS of the goal implies within RADIUS of it horizontally |
| Agents.NextPositionCompose | src/agent/RVOAgent.java:389-395 | predicting i steps and then j is predicting i+j; zero steps is the position |
| Geometry.NormalizeUnitOrZero | src/agent/RVOAgent.java:324-327 | a normalised vector is a unit vector, or zero for the zero vector |
| Agents.PreferredVelocitySpeed | src/agent/RVOAgent.java:319-353 | the preferred velocity has the preferred speed, or is zero |
| Agents.CheckExpectancy | src/agent/RVOAgent.java:530-556 | "not violated" when within 0.1·preferredSpeed and 5 degrees; otherwise violated exactly when a strategy is active and the signed angles from me-to-target to pref and to temp have a negative product; no strategy leaves the flag; a missing target dereferences null |
| Agents.Agent.SetCommitmentLevel | src/agent/RVOAgent.java:430-445 | the commitment level is the mapped one |
| Agents.Agent.DeterminePrefVelocity | src/agent/RVOAgent.java:894-947 | the direction PrefDirection gives; the current goal point is set to the waypoint when there is one |
| Agents.Agent.TryWeakTest | src/agent/RVOAgent.java:949-981 | the weak-test direction; the current goal point is set when a waypoint passes |
| Agents.Agent.SetPrefVelocity | src/agent/RVOAgent.java:319-353 | road map: speed × waypoint direction; else speed × unit vector to the goal; else speed × unit prefDirection; null prefDirection fails with nothing written |
| Agents.Agent.SenseThink | src/agent/RVOAgent.java:489-582 | a dead agent changes nothing; reaching the goal sets dead only; otherwise only prefVelocity, the current goal point, chosenVelocity and the expectancy flag are written (position and velocity never), with the perceived list, the planner outputs and the expectancy rule as stated; Perception uses the corrected cluster pass. |
| Agents.Agent.Act | src/agent/RVOAgent.java:727-748 | a live agent takes chosenVelocity and moves by velocity·TIMESTEP, and the map gets the same coordinates; a dead agent changes nothing |
| Agents.HashCode | src/agent/RVOAgent.java:874-879 | hashCode: 67·3 + id in int arithmetic, always an int; Agents.HashCodeMatchesEquals relates it to equals |
| Agents.Agent.Equals | src/agent/RVOAgent.java:859-872 | equals compares ids, so equal agents have equal hash codes |
| Agents.GoalReached | src/agent/RVOAgent.java:247-256 | reachedGoal: never without a goal; |x - goal.x| < RADIUS in pattern-based motion, else the distance test of Agents.GoalReachedIsDistance |
| Agents.NextPosition | src/agent/RVOAgent.java:389-395 | getNextPosition: position + velocity·i·TIMESTEP, the position itself at i = 0; Agents.NextPositionCompose composes predictions |
| Ranking.RankAll | src/agent/RVOAgent.java:586-647 | the insertion pass over the whole bag, keeping the lists parallel; its properties are Ranking.RankAllSorted, Ranking.RankAllPairs and Ranking.RankAllCovers |
| Clustering.ClusterAsWritten | src/agent/RVOAgent.java:648-664 | the cluster pass as written, with the stale index j; lists stay parallel; Clustering.ClusterAsWrittenTracks and Clustering.ClusterAsWrittenDropsCluster |
| Clustering.Cluster | src/agent/RVOAgent.java:648-664 | the corrected cluster pass; lists stay parallel; Clustering.ClusterTracks and Clustering.ClusterSorted |
| Budget.Truncate | src/agent/RVOAgent.java:665-676 | the budget cut of both lists, which stay of equal length; Budget.TruncatePrefix states the kept prefix |
| Environment.RightOrderAsWritten | src/environment/RVOSpace.java:242-267 | makeRightOrder as written, deciding on the int sum: the input or its reverse, same vertices; Environment.RightOrderAsWrittenReversesSmallSquare |
| Environment.RightOrder | src/environment/RVOSpace.java:242-267 | makeRightOrder with the exact sum: the input or its reverse, same vertices; Environment.RightOrderWinds states the winding |
| Navigation.PrefDirection | src/agent/RVOAgent.java:894-981 | determinePrefVelocity's result and goal point; zero without a waypoint; Navigation.PrefDirectionFallback and Navigation.PrefDirectionUnitOrZero |
| Sampling.Fold | src/motionPlanners/rvo1/RVO_1_WithAccel.java:83-112 | the candidate loop as a left fold; the choice is the start's or a candidate index; Sampling.FoldSelects, Sampling.FoldMinimal and Sampling.FoldFirstWins |

## Left out

- Perception.Perceive: uses the corrected cluster pass, so it differs from the source where the source's pass removes a cluster entry (first row of "## Findings"); the as-written pass is Clustering.ClusterAsWritten.
- Perception.DetermineInitialLists: its cluster loop is the corrected one, for the same reason.
- Agents.Agent.SenseThink: its perceived list is Perception.Perceive's, with the corrected cluster pass.
- Environment.Space.AddNewObstacle: the vertices are reordered with the exact winding sum, so the stored order differs from the source for polygons whose int-narrowed sum differs in sign from the exact one (second row of "## Findings"); the as-written order is Environment.RightOrderAsWritten.
- Environment.Space.MakeRightOrder: computes the exact-sum order, for the same reason.
- Floating point is modelled as `real`. Rounding, NaN and infinities are not modelled. `Saftey_Factor / tc` with `tc == 0` is the positive infinity `Sampling.Penalty.Infinite`, which assumes a positive safety factor.
- `Geometry.Normalize`, `Navigation.Toward`, `Agents.PositionAtEye`: javax.vecmath's `normalize` of a zero vector gives NaN. The model returns the vector unchanged, so it stays zero. Only the zero-length cases the code guards itself carry meaning.
- Square root, `expm1`, `acos`, `cos`, `sin`, `Vector2d.angle`, `Geometry.leftOf`, `Geometry.lineSegmentIntersectionTest` and `Geometry.angleBetweenWSign` are uninterpreted. `utility.Geometry` is not part of this model.
- RVOBase is not part of this model. `getObjectsAround` enters only as the object count, `getMinTimeToCollision` as a parameter `ttc` that also yields the new collision flag, and the candidate generators as the angle and magnitude lists.
- The velocity calculators (`velocityCalc`, `RVO_2_1`) and WorkingMemory are abstract `Planner` functions. WorkingMemory keeps only the expectancy flag and the strategy's target id. Any state a planner updates in its own memory is not modelled.
- MASON is not modelled: `Continuous2D` is a map from key to position with an exact closed-disc query, and scheduling (`Steppable`, `Stoppable`, `state.kill()`) becomes the returned boolean for WrapUp and the two methods SenseThink and Act.
- A `Bag`'s iteration order and `HashMultimap` groups are sequences, in whatever order the caller gives. The sensed bag is a parameter of SenseThink and must hold sensed agents, together with the state the pipeline reads of each.
- Agents.Agent.SenseThink: the random perturbation of prefVelocity that breaks symmetry is left out. It uses the simulation's random generator, and the planner receives the unperturbed prefVelocity.
- Printing, `MyProxy` formatting, `assert` statements and the agent constructors' initial `setPrefVelocity` call: the model's constructors only set the fields.
- Environment.Space.MakeRightOrder returns a new sequence instead of reversing the caller's list in place. The caller stores the result back (RVOSpace.java line 109), so no aliasing is lost there.
- Agents.Agent.DeterminePrefVelocity and Agents.Agent.TryWeakTest require a road map. The source only calls them when `hasRoadMap()` holds, and dereferences null otherwise.
- Navigation.FinalGoal: getFinalGoal's iterator on an empty last group throws; this is `None`.
- `AgentPortrayal.getRadius` returns the RADIUS captured at construction. The model uses the single `Settings.radius` for the agent's own radius.
- LatticeSpace, AgentPortrayal's drawing, ObstacleForce, the data trackers and the Swing editor are not part of this model. WrapUp reads the lattice only as "is empty".
- RVOAgent's other accessors (`acceleratePrefVelocity`, `deviatePrefVelocity`, setters) are not modelled.
- `Agents.Agent.Equals` compares ids only. `getClass()` is not modelled, since the model has the one agent class.

## Findings

| source | as written | input that shows it | evidently intended | confidence | as-written member | corrected member |
|---|---|---|---|---|---|---|
| src/agent/RVOAgent.java:648-664 | In the cluster pass, removing entry k < j shifts the cluster to position j-1, but `j != k` still compares with the old j. The cluster then absorbs itself and is removed. | The list [agent at (0,0) with radius 0.1, cluster at (0,0) with radius 0.5]: the cluster removes the agent, then itself, and the list ends empty. | A cluster removes only the other entries inside its disc and is kept itself. | not executed | Clustering.ClusterAsWrittenDropsCluster (on Clustering.ClusterAsWritten) | Clustering.Cluster, with Clustering.ClusterTracks; used by Perception.ClusterPass |
| src/environment/RVOSpace.java:244-256 | The winding sum is held in an `int`, and `sum += double` narrows each partial sum toward zero. For small polygons every term vanishes, the sum is 0, and the vertices are reversed regardless of their order. | The 0.5 square (0,0), (0.5,0), (0.5,0.5), (0,0.5) has real sum -0.5, so it is already in order. It is reversed all the same, giving the opposite winding. | Accumulate in a `double`, so that the returned order always has a negative winding sum. | not executed | Environment.RightOrderAsWrittenReversesSmallSquare (on Environment.RightOrderAsWritten) | Environment.RightOrder, with Environment.RightOrderWinds; used by Environment.Space.MakeRightOrder |
