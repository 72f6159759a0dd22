# Erlang-B blocking model of a wavelength-routed optical network

This project models, in Dafny, a simulator of wavelength-routed optical
networks. The simulator estimates the blocking probability of connection
requests that arrive at random between random vertex pairs.

- A vertex carries a wavelength **resource**. It has a set of wavelengths
  (`1..n` when built from a count), a set of wavelengths locked by
  connections, and optionally a wavelength converter. The repository has
  two identical copies of this class, `Node` and `Link`. Both are modelled
  by the one class `Resources.Resource`.
- The **router** (`Advisor`) looks for a path between `a` and `b` by trying
  each unlocked wavelength of `a`. For each wavelength it:
  - keeps only the edges whose two endpoints can use that wavelength;
  - runs a breadth-first search from `a` that records predecessors;
  - rebuilds the vertex path from `a` to `b`;
  - checks again that every vertex on the path can use the wavelength.

  Making a connection locks the wavelength on every vertex of the path.
  Removing a connection releases it on every vertex of the path.
- An **event** is a START (arrival), an END (departure carrying its path
  and wavelength), a BLOCK (rejected arrival) or a DUMMY. Events are ordered
  by time only.
- The **simulation** pops events from a min-queue:
  - a START tries to connect its endpoints. It schedules the END of the
    connection, or a BLOCK at the current time, and it schedules the next
    arrival;
  - an END releases its path;
  - a BLOCK is counted.

  After a warm-up number of arrivals, the counters are reset once. The
  result is the number of blocks divided by the number of arrivals.

Modules:
- `Resources` (resource.dfy): the resource class.
- `Routing` (router.dfy): the router, its search, and connection admission and release.
- `Events` (event.dfy): the event record and its comparisons.
- `Simulation` (simulation.dfy): the event loop.

Main results proved:
- A resource keeps `used ⊆ wavelengths` through every lock and release.
- `CanUse` only ever accepts a supported wavelength and accepts every
  unlocked one. `Lock` returns exactly the prior value of `CanUse`. `Lock`
  and `Release` change `used` only by the one wavelength.
- `AvailableWavelengths` is `wavelengths \ used`.
- The breadth-first search:
  - its predecessors form a tree rooted at `a` over kept edges;
  - each tree vertex sits exactly one level below its predecessor;
  - the discovered set is closed under kept edges, and a kept edge climbs
    at most one level.
  So a discovered vertex's level is its distance from `a` in the filtered
  graph.
- The path search:
  - returns NONE exactly when it returns the empty path;
  - returns NONE on every degenerate input;
  - otherwise returns a repetition-free walk from `a` to `b` in the
    filtered graph, on a wavelength unlocked at `a`, and every vertex of
    that walk can use the wavelength;
  - the returned walk is a shortest one: no walk of the filtered graph
    from `a` to `b` has fewer vertices;
  - is complete: NONE means that for no candidate wavelength does any
    walk of the filtered graph lead from `a` to `b`. So `HasPathBetween`
    is exactly "connectable".
- The final re-check of the path can never fail.
- The path search reads resources and changes none: `PathBetween` has no
  `modifies` clause.
- Connections:
  - making one locks the wavelength on exactly the vertices of the path;
  - removing one releases it on exactly those vertices;
  - removing twice equals removing once;
  - without converters, making and then removing a connection restores
    every resource.
- Simulation:
  - at the top of every iteration exactly one START is pending, at most
    one BLOCK is pending, and that BLOCK comes before the START;
  - each START adds exactly one new START and exactly one END or BLOCK;
    the next START joins the first vertex draw to the first later draw
    that differs from it;
  - the loop ends with exactly `limit + 1` arrivals counted;
  - the counters agree with the trace of popped events since the reset:
    blocks are the popped BLOCKs, successes the popped ENDs, and arrivals
    the popped STARTs plus the one scheduled before the loop when no reset
    happened;
  - the reset falls at the first loop head where the arrival count equals
    the warm-up threshold: the skipped events end on the START popped just
    then, so the END or BLOCK that START scheduled is counted;
  - no lock leaks: at the end, every wavelength locked at a vertex was
    locked there at the start or is carried by a pending END through that
    vertex;
  - the blocking ratio lies in `[0, 1]`;
  - the warm-up reset happens exactly when `1 <= threshold <= limit`;
  - event times are popped in non-decreasing order;
  - the whole run is recorded. Every popped event took the simulation from
    one snapshot (queue, locks, stream positions) to the next, starting from
    the opening snapshot with the initial locks. Each pop takes an event that
    no queued event precedes. A START leaves the rest of the queue in place
    and appends its END or BLOCK and then the next START. The BLOCK comes
    exactly when the endpoints cannot be connected under the locks of that
    snapshot. The END carries a shortest route on a wavelength unlocked at
    the source, and that wavelength becomes locked along the route. An END
    releases its wavelength along its path. A BLOCK or DUMMY changes nothing
    else.

External behaviour:
- Random draws come in as parameters:
  - a vertex stream `nat -> nat`;
  - an inter-arrival time stream `nat -> real`;
  - a holding time stream `nat -> real`.
- The positions consumed in each stream are threaded through the loop.
- Event times are `real`.

Notes on the source:
- With a converter and spare capacity, `can_use` reports an already locked
  wavelength as usable, and `lock` of it succeeds without recording
  anything new (`RelockWithConverter`). So releasing one of two
  connections that share a wavelength at a converter vertex unlocks it for
  both. The model reproduces this as written. `ConnectThenDisconnect`
  therefore requires resources without converters.
- The arrival counter counts arrivals when they are *scheduled*. The last
  counted arrival, number `limit + 1`, is never processed. A BLOCK pushed
  by the START that raised the count past `limit` is never counted either.
  `Simulate` states the ratio over exactly these counters.

## Model

| member | source | states |
|---|---|---|
| Resources.Range | src/Node.cpp:18-20 | the wavelengths built from a count `n` are exactly `1..n` |
| Resources.RangeCard | src/Node.cpp:14-21 | a count-built resource has `n` wavelengths, and NONE (0) is not one of them |
| Resources.Resource.constructor | src/Node.cpp:14-21 | a count-built resource has wavelengths `1..n`, nothing locked, and the converter flag given; identical to src/Link.cpp:13-19 |
| Resources.Resource.FromSet | src/Node.h:47-52 | a resource built from a collection has exactly those wavelengths and nothing locked |
| Resources.Resource.CanUse | src/Node.cpp:68-80 | the `can_use` rule, whose expression is the module function `Resources.Usable`: a usable wavelength is one the resource supports, and every supported wavelength that is not locked is usable (same code in src/Link.cpp:62-74) |
| Resources.CanUseRule | src/Node.cpp:68-80 | `can_use` is false off the wavelength set; without a converter it holds iff the wavelength exists and is unlocked; with one, iff it exists and there is spare capacity or it is unlocked, which for a resource whose locks lie within its wavelengths is iff it exists and there is spare capacity (same code in src/Link.cpp:62-74) |
| Resources.Resource.Lock | src/Node.cpp:82-90 | the result is `can_use` before the call; on failure nothing changes; on success exactly `wl` is added to the locked set; `used ⊆ wavelengths` is kept (same code in src/Link.cpp:76-84) |
| Resources.Resource.Release | src/Node.cpp:92-95 | exactly `wl` leaves the locked set, a no-op when it is not locked; the invariant is kept (same code in src/Link.cpp:86-89) |
| Resources.Resource.AvailableWavelengths | src/Node.cpp:97-108 | the result is exactly the wavelengths that are not locked (same code in src/Link.cpp:91-102) |
| Resources.ConverterUsesLocked | src/Node.cpp:75-77 | with a converter and spare capacity a locked wavelength still reads as usable |
| Resources.NoneNeverUsable | src/Node.cpp:6-21 | no count-built resource can use NONE |
| Resources.CapacityBound | src/Node.cpp:82-95 | the lock invariant bounds the number of locks by the number of wavelengths |
| Resources.LockTwiceWithoutConverter | test/node_test.cpp:61-69 | without a converter a second lock of the same wavelength fails and records nothing |
| Resources.RelockWithConverter | src/Node.cpp:75-90 | with a converter and spare capacity, locking a locked wavelength succeeds and leaves the locked set unchanged |
| Resources.ReleaseTwice | src/Node.cpp:92-95 | releasing twice has the effect of releasing once |
| Resources.LockThenRelease | src/Node.cpp:82-95 | locking an unlocked wavelength and releasing it restores the locked set |
| Resources.DrainAvailable | test/node_test.cpp:71-76 | locking available wavelengths until none is left locks every wavelength |
| Routing.EdgeFilter | src/Advisor.h:27-31 | a kept edge has the wavelength at both endpoints, and an edge whose two endpoints both have it unlocked is kept |
| Routing.EdgeFilterSymmetric | src/Advisor.h:27-31 | the edge filter gives the same answer with source and target swapped |
| Routing.EdgeFilterDropsNone | src/Advisor.h:27-31 | with NONE the filter drops every edge between count-built resources |
| Routing.Router.constructor | src/Advisor.cpp:12-21 | the router holds the given undirected graph and vertex resources |
| Routing.Router.Bfs | src/Advisor.cpp:111-132 | the predecessors form a tree rooted at `a` over kept edges, each tree vertex one level below its predecessor, each undiscovered vertex its own predecessor; the discovered set is closed under kept edges and a kept edge climbs at most one level |
| Routing.Router.StepCovers | src/Advisor.cpp:132 | after a vertex is dequeued and its neighbours visited, every discovered vertex is finished or queued, and every queued vertex is discovered |
| Routing.Router.StepLayers | src/Advisor.cpp:132 | after that step the kept edges of every finished vertex lead to discovered vertices at most one level lower, and the queue stays in level order over at most two levels |
| Routing.LevelledStep | src/Advisor.cpp:132 | dequeuing the front and appending vertices of the next level keeps a breadth-first queue in level order |
| Routing.VisitedBound | src/Advisor.cpp:111-117 | a set of vertices of an `n`-vertex graph has at most `n` elements, which bounds the number of search rounds |
| Routing.Router.VisitNeighbours | src/Advisor.cpp:124-132 | visiting `u` discovers every kept neighbour of `u`, gives each new one `u` as predecessor and places it one level below `u`, appends exactly the new ones to the queue, and leaves the already discovered vertices untouched |
| Routing.Router.KeptGrow | src/Advisor.cpp:124-132 | after neighbour `j` has been looked at, every kept neighbour up to it is discovered |
| Routing.Router.Discover | src/Advisor.cpp:124-127 | discovering an undiscovered vertex through a kept tree edge extends the tree by one level |
| Routing.Router.WalkBound | src/Advisor.cpp:132 | a walk of the filtered graph that starts in a closed, layered set ends in it, at most one level per step deeper than it started |
| Routing.Router.TracePath | src/Advisor.cpp:139-146 | following predecessors back from a discovered `b != a` yields a route from `a` to `b`: a repetition-free walk of kept, adjacent edges whose every vertex can use the wavelength; and no walk of the filtered graph from `a` to `b` is shorter |
| Routing.Router.TracedRoute | src/Advisor.cpp:139-146 | the predecessor chain from a child of `a` to `b`, prefixed by `a`, is a route whose length is one more than `b`'s level |
| Routing.Router.DepthShortest | src/Advisor.cpp:132-146 | a path with one vertex more than `b`'s level is at least as short as every walk from `a` to `b` |
| Routing.Router.NotReached | src/Advisor.cpp:134-137 | when `b`'s predecessor is still `b` after the search, no walk of the filtered graph leads from `a` to `b` |
| Routing.Router.UsableAlong | src/Advisor.cpp:148-153 | the re-check succeeds exactly when every vertex of the route can use the wavelength |
| Routing.Router.Rebuild | src/Advisor.cpp:139-157 | for a discovered `b != a` the rebuilt route passes the re-check and is a shortest route from `a` to `b` |
| Routing.Router.TryWavelength | src/Advisor.cpp:109-157 | one wavelength either yields a shortest route from `a` to `b`, or nothing, and then (for `a != b`) no walk of its filtered graph leads from `a` to `b` |
| Routing.Router.PathBetween | src/Advisor.cpp:94-161 | NONE iff empty path; degenerate inputs give NONE; a non-NONE wavelength is unlocked at `a` and comes with a shortest route from `a` to `b`; NONE means no unlocked wavelength of `a` has any walk to `b` |
| Routing.Router.HasPathBetween | src/Advisor.cpp:163-167 | true exactly when some unlocked wavelength of `a` connects `a` to `b` in its filtered graph |
| Routing.Router.MakeConnection | src/Advisor.cpp:169-184 | NONE iff empty path iff not connectable; on success the route, the wavelength and the route being shortest hold in the state before the call; exactly the path vertices gain a lock on `wl` |
| Routing.Router.LockPath | src/Advisor.cpp:178-182 | locking along a repetition-free path of usable vertices adds `wl` to exactly the path vertices |
| Routing.Router.RemoveConnection | src/Advisor.cpp:186-192 | exactly the path vertices lose their lock on `wl`; every other vertex is unchanged |
| Routing.Router.RemoveConnectionTwice | src/Advisor.cpp:186-192 | removing a connection twice equals removing it once |
| Routing.Router.ConnectThenDisconnect | src/Advisor.cpp:169-192 | without converters, making a connection and then removing it restores every resource |
| Routing.Router.GetNodes | src/Advisor.cpp:74-82 | the two endpoints are distinct vertices; the first is the first draw, the second is the first later draw that differs from it, every draw in between equals the first |
| Routing.Router.SnapshotAgrees | src/Advisor.cpp:94-167 | read against a snapshot equal to the current locks, filtered walks, routes, shortest routes and connectability are exactly the live ones, so what the search found can be stated on the locks found before a call |
| Events.Event | src/Event.cpp:31-43 | the full constructor stores source, destination, type, time, path and wavelength as given |
| Events.Default | src/Event.cpp:5-11 | the default event is a DUMMY at UNSET time (-1) between vertex 0 and itself, without path or wavelength |
| Events.Timed | src/Event.cpp:13-19 | an event built from a type and a time carries them, with endpoints 0, an empty path and WL_UNSET |
| Events.Between | src/Event.cpp:21-29 | an event built from endpoints, a type and a time carries them, with an empty path and WL_UNSET |
| Events.Equal | src/Event.cpp:94-97 | two events are `==` exactly when they agree once stripped to type and time |
| Events.NotEqual | src/Event.cpp:99-102 | `!=` is exactly the negation of `==` |
| Events.Greater | src/Event.cpp:104-107 | `a > b` iff `b < a` |
| Events.Less | src/Event.cpp:109-112 | `<` never holds between `==` events or between events that share a time |
| Events.EqualIsEquivalence | src/Event.cpp:94-97 | `==`, comparing time and type, is an equivalence relation |
| Events.EqualIgnoresPayload | src/Event.cpp:94-97 | every event is `==` to each event of its type and time whatever its endpoints, path and wavelength, among them events different from it |
| Events.LessIsStrictWeakOrder | src/Event.cpp:104-112 | `<` is irreflexive and transitive, and two events are incomparable exactly when they share a time |
| Events.IncomparableNotEqual | src/Event.cpp:94-112 | events at the same time with different types are incomparable yet not `==`, and every event has such a partner |
| Simulation.WarmUp | src/main.cpp:68 | the warm-up threshold is the override when nonzero, else a tenth of the limit rounded down |
| Simulation.CountAppend | src/main.cpp:109-118 | the number of events of a type in a concatenated queue is the sum of the parts |
| Simulation.CountSnoc | src/main.cpp:91-92 | appending an event to the trace adds one to the count of its own type only |
| Simulation.CountRemove | src/main.cpp:91-92 | popping an event removes one from the count of its own type only |
| Simulation.CountZero | src/main.cpp:91 | a queue holds no event of a type exactly when its count is zero |
| Simulation.Top | src/main.cpp:91 | the top of the min-queue is an event that no event of the queue precedes |
| Simulation.PopKeepsSchedule | src/main.cpp:91-93 | popping the earliest event of a well-formed queue leaves a well-formed queue from its time on, or, for a START, a rest with neither arrivals nor BLOCKs |
| Simulation.PushKeepsSchedule | src/main.cpp:99-120 | after a START, the rest plus its END or BLOCK plus the next arrival is a well-formed queue again |
| Simulation.PopInOrder | src/main.cpp:91-93 | popping an event no earlier than the current time keeps the pop times in non-decreasing order |
| Simulation.ReleaseCovered | src/main.cpp:122-124 | popping an event, and releasing its wavelength at `v` when it is an END through `v`, keeps the locks at `v` within the initial locks plus those of the pending ENDs |
| Simulation.AcquireCovered | src/main.cpp:101-110 | locking a new END's wavelength at the vertices of its path keeps the locks within the initial ones plus those of the pending ENDs once that END is queued |
| Simulation.PopCovered | src/main.cpp:91-93 | popping a START, BLOCK or DUMMY keeps every vertex's locks within the initial ones plus those of the pending ENDs |
| Simulation.HandleEnd | src/main.cpp:122-124 | an END releases its wavelength on exactly its path, so the new locks are the old ones with that release; the locks stay within the initial ones plus those of the remaining ENDs |
| Simulation.HandleStart | src/main.cpp:99-121 | a START yields an END carrying a shortest route and a wavelength unlocked at its source, consuming one holding-time draw, or, exactly when not connectable, a BLOCK at the current time, consuming none; only the route gains the lock; the next START is at `now` plus the next arrival draw, from the first vertex draw to the first later draw that differs from it; the locks stay covered by the pending ENDs |
| Simulation.HandleStartAt | src/main.cpp:99-121 | the same outcome stated on the locks and stream positions found on entry: the END or BLOCK as in `Follows`, the next START as in `Arrives` |
| Simulation.StartRound | src/main.cpp:99-121 | the START case leaves the rest of the queue in place and appends the END or BLOCK and then the next START, as `StartOutcome` says of the locks and positions on entry; the queue is well-formed again with at most one BLOCK and the locks stay covered by the pending ENDs |
| Simulation.Step | src/main.cpp:91-131 | one round pops an event no queued event precedes, no earlier than `now`, and moves the queue, locks and stream positions as `Advance` says: a START as `StartOutcome`, an END releases its wavelength along its path, a BLOCK or DUMMY changes nothing but the queue; the queue stays well-formed, the locks covered, and the pending BLOCKs grow only with a START |
| Simulation.RatioBound | src/main.cpp:134 | a ratio of blocks to arrivals with `blocks <= arrivals` lies in [0, 1] |
| Simulation.TallyStep | src/main.cpp:98-131 | counting a popped event adds one to the counter of its own type and keeps the counters equal to the counts of the trace |
| Simulation.RunExtend | src/main.cpp:80-132 | a run of rounds extended by one more round from its last snapshot is a run |
| Simulation.RecordStep | src/main.cpp:80-132 | a recorded run from the opening snapshot, extended by a round from the snapshot it reached, is recorded and reaches the new snapshot |
| Simulation.CountStep | src/main.cpp:91-131 | one recorded round: `Step`, the popped event appended to the history and its snapshot to the run, and exactly the counter of its type raised by one |
| Simulation.Open | src/main.cpp:66-78 | before the loop one START is queued, drawn from the start of the vertex and inter-arrival streams at time 0; the queue is well-formed without BLOCKs; the record opens with that snapshot; the locks are covered |
| Simulation.Round | src/main.cpp:84-131 | one pass of the loop body keeps the loop invariant and decreases the loop measure. The invariant covers: the counters tallying the trace; the run recorded; pops in time order; the queue well-formed; the locks covered; and the reset happening at most once, at the first loop head where the count equals the warm-up threshold, so the skipped part ends on the START that brought the count there |
| Simulation.RunRounds | src/main.cpp:80-132 | the loop runs rounds until more than `limit` arrivals are counted, and stops with exactly the invariant `Round` keeps and at most as many blocks as arrivals |
| Simulation.Conclude | src/main.cpp:80-89 | when the loop stops, exactly `limit + 1` arrivals are counted and the reset happened iff the warm-up count is in `1..limit`; the history is in time order; the counted events are the events popped after the skipped ones, and the counters count them; the skipped ones hold one arrival fewer than the warm-up count and end on a START |
| Simulation.Simulate | src/main.cpp:62-135 | the popped events are a recorded run: from the opening snapshot (the initial locks, one START drawn at time 0) every round pops an event no queued event precedes and takes the queue, locks and stream positions to the next snapshot as `Advance` says, ending at the final locks right after the popped START that pushed the count past `limit` (or before any pop when `limit` is 0); pop times never decrease; the loop ends with exactly `limit + 1` arrivals and at most that many blocks; the counters are the numbers of popped BLOCKs, popped ENDs and popped STARTs (plus the initial arrival when no reset happened) after the warm-up part of the history, which ends on the START popped when the count first reached the threshold and holds one START fewer than it; exactly one START is left pending; every lock at the end was held at the start or is carried by a pending END; the ratio is the blocks over the arrivals and lies in [0, 1]; the reset happens iff `1 <= threshold <= limit` |

## Left out

- Graph loading, DOT output and the command line of `main` (src/main.cpp:17-51, 137-194): stream and file I/O.
- Random generation (src/Advisor.cpp:84-92 and the distributions in src/Advisor.h):
  - the draws come in as three separate streams. The source draws all three from one shared `mt19937` (src/Advisor.h:127-131), so the streams are not independent there; the model allows any three streams;
  - C++ leaves unspecified the order in which `get_nodes()` and `get_arrival()` are evaluated within one constructor call (src/main.cpp:75-77, 116-118); the model fixes no order, because with separate streams the order does not matter, so which numbers of the shared generator each call receives is not modelled;
  - their distributions (uniform, exponential) are not modelled.
- Floating point:
  - event times are real numbers, not IEEE doubles;
  - `limit * 0.1` truncated to an unsigned is modelled as `limit / 10`;
  - the float division of the result is modelled as a real division.
- Boost Graph: `filtered_graph`, `breadth_first_search` and `record_predecessors` are replaced by an explicit breadth-first search over adjacency lists with a predecessor sequence. The predecessor semantics are the same: a vertex stays its own predecessor until a tree edge reaches it.
- Which wavelength is tried first: the candidates are drawn in no fixed order, matching `unordered_set` iteration. The properties hold for every order.
- Which of several events with the same time is popped first: `Top` and each recorded round keep only the minimality that the heap guarantees, and nothing depends on its tie-breaking.
- Copy and move constructors and assignments, destructors, default constructors (whose converter flag is uninitialised), and the vertex id (it plays no role in the logic).
- misc/make_connections.rb: the random topology generator is not part of this model.
- Integers are unbounded:
  - the 32-bit wrap of the unsigned counters is not modelled;
  - the cast of a negative `int` count to `unsigned` in the `int` constructors (src/Node.cpp:23-25) is not modelled.
- The edge-resource variant assumed by test/advisor_test.cpp is not modelled. Its path scenarios are not restated; the general route properties take their place.
- Routing.Router.Valid: requires that no resource carries NONE. This holds for every count-built graph, and it is what makes "NONE iff empty path" provable.
- Simulation.Simulate: requires strictly positive inter-arrival draws, which the exponential distribution yields with probability one. With a zero draw, a BLOCK and the next START could share a time and several BLOCKs could be pending. The `[0, 1]` bound is not proved for that case.
- Simulation.Simulate: requires the vertex stream to redraw a different vertex after every position. This is what `get_nodes` needs to terminate; the source's uniform draws ensure it with probability one.
- Simulation.Simulate: states that every lock at the end is an initial lock or one carried by a pending END, but not the converse (that every pending END's wavelength is still locked along its path). With a converter, two connections can share a wavelength at a vertex, and releasing one unlocks it for both.
- Routing.Router.UsableAlong: does not stop at the first vertex that fails the re-check, as the source's loop does; the result is the same.
