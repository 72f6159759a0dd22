/**
 * The discrete-event simulation: a time-ordered queue of START, END and
 * BLOCK events driving the router, with counters of arrivals, successes and
 * blocks and a one-time warm-up reset.
 */
module Simulation {
  import opened Resources
  import opened Routing
  import opened Events

  /**
   * The random draws the simulation consumes, as streams indexed from 0:
   * uniform vertex draws, inter-arrival times and holding times.
   */
  datatype Draws = Draws(vertex: nat -> nat, arrival: nat -> real, duration: nat -> real)

  /** The counters that make up the result. */
  datatype Counters = Counters(connections: nat, successes: nat, blocks: nat)

  /** The number of arrivals discarded as warm-up: the override if nonzero, else a tenth of `limit`, rounded down. */
  function WarmUp(limit: nat, ignoreFirst: nat): (t: nat)
    ensures ignoreFirst != 0 ==> t == ignoreFirst
    ensures ignoreFirst == 0 ==> 10 * t <= limit < 10 * (t + 1)
  {
    if ignoreFirst == 0 then limit / 10 else ignoreFirst
  }

  /** The number of events of type `k` in `q`. */
  function Count(q: seq<Event>, k: EventType): nat
  {
    if q == [] then 0 else (if q[0].kind == k then 1 else 0) + Count(q[1..], k)
  }

  lemma {:induction false} CountAppend(p: seq<Event>, q: seq<Event>, k: EventType)
    ensures Count(p + q, k) == Count(p, k) + Count(q, k)
  {
    if p == [] {
      assert p + q == q;
    } else {
      assert (p + q)[0] == p[0] && (p + q)[1..] == p[1..] + q;
      CountAppend(p[1..], q, k);
    }
  }

  /** Appending an event adds one to the count of its own type and leaves the others. */
  lemma CountSnoc(q: seq<Event>, e: Event)
    ensures Count(q + [e], Start) == Count(q, Start) + (if e.kind == Start then 1 else 0)
    ensures Count(q + [e], End) == Count(q, End) + (if e.kind == End then 1 else 0)
    ensures Count(q + [e], Block) == Count(q, Block) + (if e.kind == Block then 1 else 0)
  {
    CountAppend(q, [e], Start);
    CountAppend(q, [e], End);
    CountAppend(q, [e], Block);
  }

  /**
   * The counters count `trace`: arrivals (plus the one scheduled before the
   * loop when no reset has happened), successful connections and blocks.
   */
  ghost predicate Tallied(trace: seq<Event>, connections: nat, successes: nat, blocks: nat, reset: bool)
  {
    && blocks == Count(trace, Block) && successes == Count(trace, End)
    && connections == Count(trace, Start) + (if reset then 0 else 1)
  }

  /** Counting one more event adds one to the counter of its type. */
  lemma TallyStep(trace: seq<Event>, e: Event, connections: nat, successes: nat, blocks: nat, reset: bool)
    requires Tallied(trace, connections, successes, blocks, reset)
    ensures Tallied(trace + [e], connections + (if e.kind == Start then 1 else 0),
                    successes + (if e.kind == End then 1 else 0), blocks + (if e.kind == Block then 1 else 0), reset)
  {
    CountSnoc(trace, e);
  }

  /** The last event of `history`, if any, is a START. */
  ghost predicate EndsOnStart(history: seq<Event>)
  {
    |history| == 0 || history[|history| - 1].kind == Start
  }

  /**
   * The history `skipped + trace` splits at the warm-up reset, which comes at
   * the first loop head where `connections` reaches `toIgnore`: before the
   * reset nothing is skipped, and once the count has reached `toIgnore` the
   * history ends on the START that brought it there; after the reset the
   * skipped part ends on that START and holds one START fewer than
   * `toIgnore`, the arrival scheduled before the loop making up the rest.
   */
  ghost predicate WarmUpSplit(toIgnore: nat, ignored: bool, connections: nat, skipped: seq<Event>, trace: seq<Event>)
  {
    && (!ignored ==> skipped == [])
    && (!ignored && connections == toIgnore ==> EndsOnStart(skipped + trace))
    && (ignored ==> Count(skipped, Start) + 1 == toIgnore && EndsOnStart(skipped))
  }

  /** Appending to the part after a split point appends to the whole. */
  lemma SplitSnoc(skipped: seq<Event>, trace: seq<Event>, e: Event)
    ensures (skipped + trace) + [e] == skipped + (trace + [e])
  {
  }

  /** Taking the event at `m` out of the queue removes it from the count of its type only. */
  lemma CountRemove(q: seq<Event>, m: nat, k: EventType)
    requires m < |q|
    ensures Count(q, k) == Count(q[..m] + q[m + 1..], k) + (if q[m].kind == k then 1 else 0)
  {
    assert q == q[..m] + ([q[m]] + q[m + 1..]);
    CountAppend(q[..m], [q[m]] + q[m + 1..], k);
    CountAppend([q[m]], q[m + 1..], k);
    CountAppend(q[..m], q[m + 1..], k);
  }

  /** A queue has no event of type `k` exactly when its count is zero. */
  lemma {:induction false} CountZero(q: seq<Event>, k: EventType)
    ensures Count(q, k) == 0 <==> forall e :: e in q ==> e.kind != k
  {
    if q != [] {
      CountZero(q[1..], k);
      assert forall e :: e in q <==> e == q[0] || e in q[1..];
    }
  }

  /**
   * The top of the min-queue ordered by `operator>`: an event that no other
   * event of the queue precedes.
   */
  method Top(q: seq<Event>) returns (m: nat)
    requires |q| > 0
    ensures m < |q|
    ensures forall e :: e in q ==> !Greater(q[m], e)
  {
    m := 0;
    var i := 1;
    while i < |q|
      invariant 1 <= i <= |q| && m < i
      invariant forall j :: 0 <= j < i ==> !Greater(q[m], q[j])
    {
      if Greater(q[m], q[i]) {
        m := i;
      }
      i := i + 1;
    }
  }

  /**
   * The shape of the event queue between two pops: exactly one pending
   * arrival, at most one pending BLOCK and that one before the arrival,
   * nothing earlier than `now`, and every carried path inside the graph.
   */
  ghost predicate Scheduled(pq: seq<Event>, now: real, n: nat)
  {
    && Count(pq, Start) == 1 && Count(pq, Block) <= 1
    && (forall e :: e in pq ==> e.time >= now)
    && (forall e, f :: e in pq && f in pq && e.kind == Block && f.kind == Start ==> e.time < f.time)
    && (forall e, k :: e in pq && 0 <= k < |e.path| ==> e.path[k] < n)
  }

  /**
   * Popping the earliest event `pq[m]` of a scheduled queue: a non-START
   * leaves the rest scheduled from its time on; a START leaves a rest that
   * holds neither arrivals nor BLOCKs.
   */
  lemma PopKeepsSchedule(pq: seq<Event>, m: nat, now: real, n: nat)
    requires Scheduled(pq, now, n) && m < |pq|
    requires forall e :: e in pq ==> pq[m].time <= e.time
    ensures forall k :: 0 <= k < |pq[m].path| ==> pq[m].path[k] < n
    ensures pq[m].time >= now
    ensures Count(pq[..m] + pq[m + 1..], Block) + (if pq[m].kind == Block then 1 else 0) == Count(pq, Block)
    ensures pq[m].kind != Start ==> Scheduled(pq[..m] + pq[m + 1..], pq[m].time, n)
    ensures pq[m].kind == Start ==> forall e :: e in pq[..m] + pq[m + 1..] ==>
      e.kind != Start && e.kind != Block && e.time >= pq[m].time && forall k :: 0 <= k < |e.path| ==> e.path[k] < n
  {
    var rest := pq[..m] + pq[m + 1..];
    assert forall e :: e in rest ==> e in pq;
    CountRemove(pq, m, Start);
    CountRemove(pq, m, Block);
    if pq[m].kind == Start {
      CountZero(rest, Start);
      forall e | e in rest
        ensures e.kind != Block
      {
        assert e in pq;
      }
    }
  }

  /**
   * After a START at `now`, the rest of the queue followed by the END or
   * BLOCK it led to and by the next arrival is scheduled again.
   */
  lemma PushKeepsSchedule(rest: seq<Event>, follow: Event, arrival: Event, now: real, n: nat)
    requires forall e :: e in rest ==>
      e.kind != Start && e.kind != Block && e.time >= now && forall k :: 0 <= k < |e.path| ==> e.path[k] < n
    requires follow.kind == End || follow.kind == Block
    requires follow.kind == Block ==> follow.time == now
    requires follow.time >= now && forall k :: 0 <= k < |follow.path| ==> follow.path[k] < n
    requires arrival.kind == Start && arrival.time > now && arrival.path == []
    ensures Scheduled(rest + [follow] + [arrival], now, n)
    ensures Count(rest + [follow] + [arrival], Block) == (if follow.kind == Block then 1 else 0)
  {
    var pq := rest + [follow] + [arrival];
    CountZero(rest, Start);
    CountZero(rest, Block);
    CountAppend(rest, [follow], Start);
    CountAppend(rest, [follow], Block);
    CountAppend(rest + [follow], [arrival], Start);
    CountAppend(rest + [follow], [arrival], Block);
    assert forall e :: e in pq <==> e in rest || e == follow || e == arrival;
  }

  /** The events popped so far came out in non-decreasing time order, none later than `now`. */
  ghost predicate PoppedInOrder(history: seq<Event>, now: real)
  {
    && (forall i, j :: 0 <= i < j < |history| ==> history[i].time <= history[j].time)
    && (forall i :: 0 <= i < |history| ==> history[i].time <= now)
  }

  /** Popping an event no earlier than `now` keeps the popped events in time order. */
  lemma PopInOrder(history: seq<Event>, now: real, e: Event)
    requires PoppedInOrder(history, now) && now <= e.time
    ensures PoppedInOrder(history + [e], e.time)
  {
  }

  /** The ratio of blocks to arrivals lies in [0, 1]. */
  lemma RatioBound(blocks: nat, connections: nat)
    requires blocks <= connections && connections > 0
    ensures 0.0 <= blocks as real / connections as real <= 1.0
  {
    var r := blocks as real / connections as real;
    assert r * connections as real == blocks as real;
  }

  /** The wavelengths that pending END events will release at vertex `v`. */
  ghost function Held(pq: seq<Event>, v: nat): set<nat>
  {
    set e | e in pq && e.kind == End && v in e.path :: e.wavelength
  }

  /** The locked wavelengths of every vertex, in vertex order. */
  ghost function Locks(router: Router): (locks: seq<set<nat>>)
    reads router.Repr()
    ensures |locks| == |router.nodes|
    ensures forall v :: 0 <= v < |router.nodes| ==> locks[v] == router.nodes[v].used
  {
    seq(|router.nodes|, v requires 0 <= v < |router.nodes| reads router.Repr() => router.nodes[v].used)
  }

  /** The locks after `wl` is locked on every vertex of `path`. */
  ghost function Acquired(locks: seq<set<nat>>, path: seq<nat>, wl: nat): seq<set<nat>>
  {
    seq(|locks|, v requires 0 <= v < |locks| => if v in path then locks[v] + {wl} else locks[v])
  }

  /** The locks after `wl` is released on every vertex of `path`. */
  ghost function Released(locks: seq<set<nat>>, path: seq<nat>, wl: nat): seq<set<nat>>
  {
    seq(|locks|, v requires 0 <= v < |locks| => if v in path then locks[v] - {wl} else locks[v])
  }

  /** Locks that differ from `locks` by `wl` added exactly on `path` are `Acquired(locks, path, wl)`. */
  lemma AcquiredIntro(locks: seq<set<nat>>, after: seq<set<nat>>, path: seq<nat>, wl: nat)
    requires |after| == |locks|
    requires forall v :: 0 <= v < |locks| ==> after[v] == if v in path then locks[v] + {wl} else locks[v]
    ensures after == Acquired(locks, path, wl)
  {
  }

  /** Locks that differ from `locks` by `wl` removed exactly on `path` are `Released(locks, path, wl)`. */
  lemma ReleasedIntro(locks: seq<set<nat>>, after: seq<set<nat>>, path: seq<nat>, wl: nat)
    requires |after| == |locks|
    requires forall v :: 0 <= v < |locks| ==> after[v] == if v in path then locks[v] - {wl} else locks[v]
    ensures after == Released(locks, path, wl)
  {
  }

  /** How far each of the three random streams has been consumed. */
  datatype Cursor = Cursor(vertex: nat, arrival: nat, duration: nat)

  /** The simulation between two pops: the event queue, the locks of every vertex and the stream positions. */
  datatype Snapshot = Snapshot(queue: seq<Event>, locks: seq<set<nat>>, cursor: Cursor)

  /**
   * `arrival` is the next START scheduled at `now`, drawn from the streams
   * at `c`, which leaves them at `c2`: its source is the next vertex draw,
   * its destination the first later draw that differs, and its time `now`
   * plus the next inter-arrival time.
   */
  ghost predicate Arrives(draws: Draws, c: Cursor, c2: Cursor, now: real, arrival: Event)
  {
    && c2.arrival == c.arrival + 1 && c.vertex + 2 <= c2.vertex
    && arrival == Between(draws.vertex(c.vertex), draws.vertex(c2.vertex - 1), Start, now + draws.arrival(c.arrival))
    && arrival.src != arrival.dst
    && forall k :: c.vertex < k < c2.vertex - 1 ==> draws.vertex(k) == arrival.src
  }

  /** The facts about a freshly drawn arrival that `Arrives` bundles. */
  lemma ArrivesIntro(draws: Draws, c: Cursor, c2: Cursor, now: real, arrival: Event)
    requires c2.arrival == c.arrival + 1 && c.vertex + 2 <= c2.vertex
    requires arrival == Between(draws.vertex(c.vertex), draws.vertex(c2.vertex - 1), Start, now + draws.arrival(c.arrival))
    requires arrival.src != arrival.dst
    requires forall k :: c.vertex < k < c2.vertex - 1 ==> draws.vertex(k) == arrival.src
    ensures Arrives(draws, c, c2, now, arrival)
  {
  }

  /**
   * What the START `e` leads to under the locks `locks`, with the holding
   * times consumed up to `d`: a BLOCK at its time, changing nothing, exactly
   * when its endpoints cannot be connected; otherwise an END between the
   * same endpoints after the next holding time, carrying a shortest route
   * whose wavelength is unlocked at the source, and that wavelength locked
   * along the route. `locks2` and `d2` are the locks and the position after.
   */
  ghost predicate Follows(router: Router, draws: Draws, e: Event, locks: seq<set<nat>>, d: nat,
                          follow: Event, locks2: seq<set<nat>>, d2: nat)
  {
    && (follow.kind == End || follow.kind == Block)
    && (follow.kind == Block <==> !router.ConnectableAt(locks, e.src, e.dst))
    && (follow.kind == Block ==> follow == Timed(Block, e.time) && locks2 == locks && d2 == d)
    && (follow.kind == End ==>
          && follow.src == e.src && follow.dst == e.dst
          && follow.time == e.time + draws.duration(d) && d2 == d + 1
          && router.RouteAt(locks, follow.path, e.src, e.dst, follow.wavelength)
          && router.ShortestAt(locks, follow.path, e.src, e.dst, follow.wavelength)
          && follow.wavelength in router.nodes[e.src].wavelengths - locks[e.src]
          && locks2 == Acquired(locks, follow.path, follow.wavelength))
  }

  /** The two outcomes of a START that `Follows` bundles, one case at a time. */
  lemma FollowsIntro(router: Router, draws: Draws, e: Event, locks: seq<set<nat>>, d: nat,
                     follow: Event, locks2: seq<set<nat>>, d2: nat)
    requires follow.kind == End || follow.kind == Block
    requires follow.kind == Block ==>
      && !router.ConnectableAt(locks, e.src, e.dst)
      && follow == Timed(Block, e.time) && locks2 == locks && d2 == d
    requires follow.kind == End ==>
      && router.ConnectableAt(locks, e.src, e.dst)
      && follow.src == e.src && follow.dst == e.dst
      && follow.time == e.time + draws.duration(d) && d2 == d + 1
      && router.RouteAt(locks, follow.path, e.src, e.dst, follow.wavelength)
      && router.ShortestAt(locks, follow.path, e.src, e.dst, follow.wavelength)
      && follow.wavelength in router.nodes[e.src].wavelengths - locks[e.src]
      && locks2 == Acquired(locks, follow.path, follow.wavelength)
    ensures Follows(router, draws, e, locks, d, follow, locks2, d2)
  {
  }

  /**
   * Handling the START `e` from the snapshot `rest`, `locks`, `c`, the
   * queue without `e`, gives `s2`: the rest of the queue followed by the
   * END or BLOCK it led to and by the next arrival.
   */
  ghost predicate StartOutcome(router: Router, draws: Draws, e: Event, rest: seq<Event>, locks: seq<set<nat>>, c: Cursor, s2: Snapshot)
  {
    && |s2.queue| == |rest| + 2 && s2.queue[..|rest|] == rest
    && Follows(router, draws, e, locks, c.duration, s2.queue[|rest|], s2.locks, s2.cursor.duration)
    && Arrives(draws, c, s2.cursor, e.time, s2.queue[|rest| + 1])
  }

  /**
   * One round of the simulation takes `s` to `s2`: it pops `s.queue[m]`, an
   * event no other queued event precedes, and handles it. A START is handled
   * as `StartOutcome` says, an END releases its wavelength along its path,
   * and a BLOCK or a DUMMY changes nothing else.
   */
  ghost predicate Advance(router: Router, draws: Draws, s: Snapshot, m: nat, s2: Snapshot)
  {
    && m < |s.queue|
    && (forall f :: f in s.queue ==> !Greater(s.queue[m], f))
    && var e := s.queue[m];
       var rest := s.queue[..m] + s.queue[m + 1..];
       match e.kind
       case Start => StartOutcome(router, draws, e, rest, s.locks, s.cursor, s2)
       case End => s2 == Snapshot(rest, Released(s.locks, e.path, e.wavelength), s.cursor)
       case Block => s2 == Snapshot(rest, s.locks, s.cursor)
       case Dummy => s2 == Snapshot(rest, s.locks, s.cursor)
  }

  /**
   * Round `i` of a recorded run: the `i`-th event popped is
   * `states[i].queue[tops[i]]`, and handling it takes `states[i]` to
   * `states[i + 1]`.
   */
  ghost predicate RoundOf(router: Router, draws: Draws, states: seq<Snapshot>, tops: seq<nat>, history: seq<Event>, i: nat)
  {
    && i < |history| && i + 1 < |states| && i < |tops|
    && tops[i] < |states[i].queue| && history[i] == states[i].queue[tops[i]]
    && Advance(router, draws, states[i], tops[i], states[i + 1])
  }

  /** `history` is a run of the simulation through the snapshots `states`, round by round. */
  ghost predicate Run(router: Router, draws: Draws, states: seq<Snapshot>, tops: seq<nat>, history: seq<Event>)
  {
    && |states| == |history| + 1 && |tops| == |history|
    && forall i :: 0 <= i < |history| ==> RoundOf(router, draws, states, tops, history, i)
  }

  /** A run extended by one more round is a run. */
  lemma RunExtend(router: Router, draws: Draws, states: seq<Snapshot>, tops: seq<nat>, history: seq<Event>, m: nat, s2: Snapshot)
    requires Run(router, draws, states, tops, history)
    requires Advance(router, draws, states[|history|], m, s2)
    ensures Run(router, draws, states + [s2], tops + [m], history + [states[|history|].queue[m]])
  {
    var states2, tops2, history2 := states + [s2], tops + [m], history + [states[|history|].queue[m]];
    forall i | 0 <= i < |history2|
      ensures RoundOf(router, draws, states2, tops2, history2, i)
    {
      if i < |history| {
        assert RoundOf(router, draws, states, tops, history, i);
        assert states2[i] == states[i] && states2[i + 1] == states[i + 1] && tops2[i] == tops[i] && history2[i] == history[i];
      }
    }
  }

  /**
   * `history` is a run from an opening snapshot with the locks `init`, and
   * it has reached `last`.
   */
  ghost predicate Recorded(router: Router, draws: Draws, init: seq<set<nat>>,
                           states: seq<Snapshot>, tops: seq<nat>, history: seq<Event>, last: Snapshot)
  {
    && Run(router, draws, states, tops, history)
    && Opening(draws, states[0], init)
    && states[|history|] == last
  }

  /** Recording one more round keeps the record. */
  lemma RecordStep(router: Router, draws: Draws, init: seq<set<nat>>,
                   states: seq<Snapshot>, tops: seq<nat>, history: seq<Event>, last: Snapshot, m: nat, s2: Snapshot)
    requires Recorded(router, draws, init, states, tops, history, last)
    requires Advance(router, draws, last, m, s2)
    ensures Recorded(router, draws, init, states + [s2], tops + [m], history + [last.queue[m]], s2)
  {
    RunExtend(router, draws, states, tops, history, m, s2);
    assert (states + [s2])[0] == states[0];
  }

  /**
   * The opening snapshot: the locks `locks` found, and a queue holding only
   * the first arrival, drawn from the start of the streams at time 0.
   */
  ghost predicate Opening(draws: Draws, s: Snapshot, locks: seq<set<nat>>)
  {
    && |s.queue| == 1 && s.locks == locks && s.cursor.duration == 0
    && Arrives(draws, Cursor(0, 0, 0), s.cursor, 0.0, s.queue[0])
  }

  /**
   * Popping `q[m]`, and releasing its wavelength at `v` when it is an END
   * through `v`, keeps the locks at `v` covered by the initial locks `init`
   * and the pending END events.
   */
  lemma ReleaseCovered(held: set<nat>, after: set<nat>, init: set<nat>, q: seq<Event>, m: nat, v: nat)
    requires m < |q| && held <= init + Held(q, v)
    requires after == if q[m].kind == End && v in q[m].path then held - {q[m].wavelength} else held
    ensures after <= init + Held(q[..m] + q[m + 1..], v)
  {
    var rest := q[..m] + q[m + 1..];
    forall x | x in after && x !in init
      ensures x in Held(rest, v)
    {
      var e :| e in q && e.kind == End && v in e.path && e.wavelength == x;
      var i :| 0 <= i < |q| && q[i] == e;
      assert i != m;
      if i < m {
        assert rest[i] == e;
      } else {
        assert rest[i - 1] == e;
      }
    }
  }

  /**
   * Locking the wavelength of a new END along its path at `v` keeps the
   * locks at `v` covered once that END is queued.
   */
  lemma AcquireCovered(held: set<nat>, after: set<nat>, init: set<nat>, rest: seq<Event>, follow: Event, arrival: Event, v: nat)
    requires held <= init + Held(rest, v)
    requires after == if follow.kind == End && v in follow.path then held + {follow.wavelength} else held
    ensures after <= init + Held(rest + [follow] + [arrival], v)
  {
    var pq := rest + [follow] + [arrival];
    assert forall e :: e in rest ==> e in pq;
    assert follow in pq;
  }

  /**
   * Every lock held at a vertex is an initial lock, from `init`, or will be
   * released by a pending END event.
   */
  ghost predicate Covered(router: Router, init: seq<set<nat>>, pq: seq<Event>)
    reads router.Repr()
  {
    && |init| == |router.nodes|
    && forall v :: 0 <= v < |router.nodes| ==> router.nodes[v].used <= init[v] + Held(pq, v)
  }

  /** Popping an event other than an END leaves the locks covered. */
  lemma PopCovered(router: Router, init: seq<set<nat>>, q: seq<Event>, m: nat)
    requires m < |q| && q[m].kind != End && Covered(router, init, q)
    ensures Covered(router, init, q[..m] + q[m + 1..])
  {
    forall v | 0 <= v < |router.nodes|
      ensures router.nodes[v].used <= init[v] + Held(q[..m] + q[m + 1..], v)
    {
      ReleaseCovered(router.nodes[v].used, router.nodes[v].used, init[v], q, m, v);
    }
  }

  /**
   * Handles the END `q[m]` popped from `q`: releases its wavelength along its
   * path, so the locks stay covered by the rest of the queue.
   */
  method HandleEnd(router: Router, event: Event, ghost q: seq<Event>, ghost m: nat, ghost init: seq<set<nat>>)
    requires router.Valid() && m < |q| && q[m] == event && event.kind == End
    requires forall k :: 0 <= k < |q[m].path| ==> q[m].path[k] < |router.nodes|
    requires Covered(router, init, q)
    modifies router.Repr()
    ensures router.Valid()
    ensures forall v :: 0 <= v < |router.nodes| ==>
      router.nodes[v].used == if v in q[m].path then old(router.nodes[v].used) - {q[m].wavelength} else old(router.nodes[v].used)
    ensures Covered(router, init, q[..m] + q[m + 1..])
    ensures Locks(router) == Released(old(Locks(router)), q[m].path, q[m].wavelength)
  {
    router.RemoveConnection(event.path, event.wavelength);
    forall v | 0 <= v < |router.nodes|
      ensures router.nodes[v].used <= init[v] + Held(q[..m] + q[m + 1..], v)
    {
      ReleaseCovered(old(router.nodes[v].used), router.nodes[v].used, init[v], q, m, v);
    }
    ReleasedIntro(old(Locks(router)), Locks(router), event.path, event.wavelength);
  }

  /**
   * Handles a START popped at time `now`: tries to connect its endpoints,
   * schedules either the END of the connection, carrying its path and
   * wavelength, or a BLOCK at `now`, and schedules the next arrival between
   * two freshly drawn endpoints.
   */
  method HandleStart(router: Router, event: Event, now: real, draws: Draws,
                     vertexPos0: nat, arrivalPos0: nat, durationPos0: nat, ghost rest: seq<Event>, ghost init: seq<set<nat>>)
    returns (follow: Event, arrival: Event, vertexPos: nat, arrivalPos: nat, durationPos: nat)
    requires router.Valid()
    requires forall i :: draws.vertex(i) < |router.nodes|
    requires forall p :: Redraws(draws.vertex, p)
    requires forall i :: draws.arrival(i) > 0.0
    requires forall i :: draws.duration(i) >= 0.0
    requires Covered(router, init, rest)
    modifies router.Repr()
    ensures router.Valid()
    ensures Covered(router, init, rest + [follow] + [arrival])
    ensures follow.kind == End || follow.kind == Block
    ensures follow.kind == Block ==> follow == Timed(Block, now) && old(!router.Connectable(event.src, event.dst))
    ensures follow.kind == End ==>
      && follow.src == event.src && follow.dst == event.dst
      && follow.time == now + draws.duration(durationPos0) && durationPos == durationPos0 + 1
      && follow.wavelength != NONE
      && old(router.Connectable(event.src, event.dst))
      && old(router.IsRoute(follow.path, event.src, event.dst, follow.wavelength))
      && old(router.Shortest(follow.path, event.src, event.dst, follow.wavelength))
      && event.src < |router.nodes| && old(follow.wavelength in router.Candidates(event.src))
    ensures forall v :: 0 <= v < |router.nodes| ==>
      router.nodes[v].used ==
        if follow.kind == End && v in follow.path then old(router.nodes[v].used) + {follow.wavelength}
        else old(router.nodes[v].used)
    ensures follow.time >= now
    ensures forall k :: 0 <= k < |follow.path| ==> follow.path[k] < |router.nodes|
    ensures follow.kind == Block ==> durationPos == durationPos0
    ensures vertexPos0 + 2 <= vertexPos
    ensures arrival == Between(draws.vertex(vertexPos0), draws.vertex(vertexPos - 1), Start, now + draws.arrival(arrivalPos0))
    ensures forall k :: vertexPos0 < k < vertexPos - 1 ==> draws.vertex(k) == arrival.src
    ensures arrival.src != arrival.dst && arrival.src < |router.nodes| && arrival.dst < |router.nodes|
    ensures arrivalPos == arrivalPos0 + 1
  {
    durationPos := durationPos0;
    var path, wl := router.MakeConnection(event.src, event.dst);
    if wl != NONE {
      // Schedule the end of the connection
      follow := Event(event.src, event.dst, End, now + draws.duration(durationPos), path, wl);
      durationPos := durationPos + 1;
    } else {
      follow := Timed(Block, now);
    }
    // Schedule the next arrival between two random vertices
    var nextSrc, nextDst;
    nextSrc, nextDst, vertexPos := router.GetNodes(draws.vertex, vertexPos0);
    arrival := Between(nextSrc, nextDst, Start, now + draws.arrival(arrivalPos0));
    arrivalPos := arrivalPos0 + 1;
    forall v | 0 <= v < |router.nodes|
      ensures router.nodes[v].used <= init[v] + Held(rest + [follow] + [arrival], v)
    {
      AcquireCovered(old(router.nodes[v].used), router.nodes[v].used, init[v], rest, follow, arrival, v);
    }
  }

  /**
   * `HandleStart` at the time of the START, with what it did stated on the
   * snapshot of the locks found on entry: the END or BLOCK as `Follows`
   * says, the next arrival as `Arrives` says.
   */
  method HandleStartAt(router: Router, event: Event, draws: Draws,
                       vertexPos0: nat, arrivalPos0: nat, durationPos0: nat, ghost rest: seq<Event>, ghost init: seq<set<nat>>)
    returns (follow: Event, arrival: Event, vertexPos: nat, arrivalPos: nat, durationPos: nat)
    requires router.Valid()
    requires forall i :: draws.vertex(i) < |router.nodes|
    requires forall p :: Redraws(draws.vertex, p)
    requires forall i :: draws.arrival(i) > 0.0
    requires forall i :: draws.duration(i) >= 0.0
    requires Covered(router, init, rest)
    modifies router.Repr()
    ensures router.Valid()
    ensures Covered(router, init, rest + [follow] + [arrival])
    ensures Follows(router, draws, event, old(Locks(router)), durationPos0, follow, Locks(router), durationPos)
    ensures Arrives(draws, Cursor(vertexPos0, arrivalPos0, durationPos0), Cursor(vertexPos, arrivalPos, durationPos), event.time, arrival)
  {
    ghost var locks := Locks(router);
    router.SnapshotAgrees(locks, event.src, event.dst);
    follow, arrival, vertexPos, arrivalPos, durationPos :=
      HandleStart(router, event, event.time, draws, vertexPos0, arrivalPos0, durationPos0, rest, init);
    if follow.kind == End {
      AcquiredIntro(locks, Locks(router), follow.path, follow.wavelength);
    } else {
      assert Locks(router) == locks;
    }
    FollowsIntro(router, draws, event, locks, durationPos0, follow, Locks(router), durationPos);
    ghost var c0, c1 := Cursor(vertexPos0, arrivalPos0, durationPos0), Cursor(vertexPos, arrivalPos, durationPos);
    assert c0.vertex == vertexPos0 && c0.arrival == arrivalPos0 && c1.vertex == vertexPos && c1.arrival == arrivalPos;
    ArrivesIntro(draws, c0, c1, event.time, arrival);
  }

  /**
   * The START case of the loop: handles the START and queues the END or
   * BLOCK it led to and the next arrival behind the rest of the queue, as
   * `StartOutcome` says of the locks found on entry.
   */
  method StartRound(router: Router, event: Event, draws: Draws,
                    vertexPos0: nat, arrivalPos0: nat, durationPos0: nat, rest: seq<Event>, ghost init: seq<set<nat>>)
    returns (next: seq<Event>, vertexPos: nat, arrivalPos: nat, durationPos: nat)
    requires router.Valid()
    requires forall i :: draws.vertex(i) < |router.nodes|
    requires forall p :: Redraws(draws.vertex, p)
    requires forall i :: draws.arrival(i) > 0.0
    requires forall i :: draws.duration(i) >= 0.0
    requires forall e :: e in rest ==>
      e.kind != Start && e.kind != Block && e.time >= event.time && forall k :: 0 <= k < |e.path| ==> e.path[k] < |router.nodes|
    requires Covered(router, init, rest)
    modifies router.Repr()
    ensures router.Valid()
    ensures StartOutcome(router, draws, event, rest, old(Locks(router)), Cursor(vertexPos0, arrivalPos0, durationPos0),
                         Snapshot(next, Locks(router), Cursor(vertexPos, arrivalPos, durationPos)))
    ensures Scheduled(next, event.time, |router.nodes|)
    ensures Covered(router, init, next)
    ensures Count(next, Block) <= 1
  {
    var follow, arrival;
    follow, arrival, vertexPos, arrivalPos, durationPos :=
      HandleStartAt(router, event, draws, vertexPos0, arrivalPos0, durationPos0, rest, init);
    PushKeepsSchedule(rest, follow, arrival, event.time, |router.nodes|);
    next := rest + [follow] + [arrival];
    assert next[..|rest|] == rest && next[|rest|] == follow && next[|rest| + 1] == arrival;
  }

  /**
   * One round of the simulation loop: pops the earliest event `pq[m]` and
   * handles it, a START by connecting and scheduling its END or BLOCK and the
   * next arrival, an END by releasing its connection, a BLOCK or a DUMMY by
   * nothing more: the round `Advance` describes, from the locks on entry to
   * the locks on exit.
   */
  method Step(router: Router, pq: seq<Event>, now: real, draws: Draws,
              vertexPos0: nat, arrivalPos0: nat, durationPos0: nat, ghost init: seq<set<nat>>)
    returns (event: Event, next: seq<Event>, vertexPos: nat, arrivalPos: nat, durationPos: nat, m: nat)
    requires router.Valid()
    requires forall i :: draws.vertex(i) < |router.nodes|
    requires forall p :: Redraws(draws.vertex, p)
    requires forall i :: draws.arrival(i) > 0.0
    requires forall i :: draws.duration(i) >= 0.0
    requires Scheduled(pq, now, |router.nodes|)
    requires Covered(router, init, pq)
    modifies router.Repr()
    ensures router.Valid()
    ensures m < |pq| && event == pq[m]
    ensures Advance(router, draws, Snapshot(pq, old(Locks(router)), Cursor(vertexPos0, arrivalPos0, durationPos0)), m,
                    Snapshot(next, Locks(router), Cursor(vertexPos, arrivalPos, durationPos)))
    ensures event.time >= now
    ensures Scheduled(next, event.time, |router.nodes|)
    ensures Covered(router, init, next)
    ensures Count(next, Block) + (if event.kind == Block then 1 else 0) <= Count(pq, Block) + (if event.kind == Start then 1 else 0)
  {
    vertexPos, arrivalPos, durationPos := vertexPos0, arrivalPos0, durationPos0;
    CountZero(pq, Start);
    m := Top(pq);
    event := pq[m];
    PopKeepsSchedule(pq, m, now, |router.nodes|);
    next := pq[..m] + pq[m + 1..];
    match event.kind
    case Start =>
      PopCovered(router, init, pq, m);
      next, vertexPos, arrivalPos, durationPos :=
        StartRound(router, event, draws, vertexPos, arrivalPos, durationPos, next, init);
    case End =>
      HandleEnd(router, event, pq, m, init);
    case Block =>
      PopCovered(router, init, pq, m);
    case Dummy =>
      PopCovered(router, init, pq, m);
  }

  /**
   * Once the loop stops, more than `limit` arrivals were counted, so the
   * reset happened exactly when the warm-up count lies in 1..`limit`; the
   * counted events are the popped events after the first `|skipped|`, and
   * those skipped ones hold one arrival fewer than the warm-up count, the
   * arrival scheduled before the loop making up the difference, and end on
   * the START that brought the count to it.
   */
  lemma Conclude(limit: nat, ignoreFirst: nat, reset: bool, stats: Counters, now: real,
                 skipped: seq<Event>, trace: seq<Event>, history: seq<Event>)
    requires history == skipped + trace
    requires limit < stats.connections <= limit + 1
    requires !reset ==> 1 <= stats.connections && (1 <= WarmUp(limit, ignoreFirst) <= limit ==> stats.connections <= WarmUp(limit, ignoreFirst))
    requires reset ==> 1 <= WarmUp(limit, ignoreFirst) <= limit
    requires WarmUpSplit(WarmUp(limit, ignoreFirst), reset, stats.connections, skipped, trace)
    requires Tallied(trace, stats.connections, stats.successes, stats.blocks, reset)
    requires PoppedInOrder(history, now)
    ensures stats.connections == limit + 1
    ensures reset <==> 1 <= WarmUp(limit, ignoreFirst) <= limit
    ensures forall i, j :: 0 <= i < j < |history| ==> history[i].time <= history[j].time
    ensures |trace| <= |history| && trace == history[|history| - |trace|..]
    ensures !reset ==> trace == history
    ensures reset ==> EndsOnStart(history[..|history| - |trace|])
    ensures reset ==> Count(history[..|history| - |trace|], Start) + 1 == WarmUp(limit, ignoreFirst)
    ensures stats.blocks == Count(trace, Block) && stats.successes == Count(trace, End)
    ensures stats.connections == Count(trace, Start) + (if reset then 0 else 1)
  {
    assert trace == history[|history| - |trace|..] && skipped == history[..|history| - |trace|];
  }

  /**
   * `Step`, then one more on the counter of the popped event's type. The
   * round is recorded: the popped event is appended to the history
   * `skipped + trace0`, by appending it to `trace0`, and the snapshot it
   * leads to to `states`, so the record reaches the queue, locks and stream
   * positions after the round.
   */
  method CountStep(router: Router, pq: seq<Event>, now: real, draws: Draws,
               vertexPos0: nat, arrivalPos0: nat, durationPos0: nat,
               connections0: nat, successes0: nat, blocks0: nat, reset: bool, ghost init: seq<set<nat>>,
               ghost states0: seq<Snapshot>, ghost tops0: seq<nat>, ghost skipped: seq<Event>, ghost trace0: seq<Event>)
    returns (event: Event, next: seq<Event>, vertexPos: nat, arrivalPos: nat, durationPos: nat,
             connections: nat, successes: nat, blocks: nat,
             ghost states: seq<Snapshot>, ghost tops: seq<nat>, ghost trace: seq<Event>)
    requires router.Valid()
    requires forall i :: draws.vertex(i) < |router.nodes|
    requires forall p :: Redraws(draws.vertex, p)
    requires forall i :: draws.arrival(i) > 0.0
    requires forall i :: draws.duration(i) >= 0.0
    requires Scheduled(pq, now, |router.nodes|)
    requires Covered(router, init, pq)
    requires Recorded(router, draws, init, states0, tops0, skipped + trace0, Snapshot(pq, Locks(router), Cursor(vertexPos0, arrivalPos0, durationPos0)))
    requires PoppedInOrder(skipped + trace0, now)
    requires Tallied(trace0, connections0, successes0, blocks0, reset)
    requires blocks0 + Count(pq, Block) <= connections0 + (if reset then 1 else 0)
    modifies router.Repr()
    ensures router.Valid()
    ensures trace == trace0 + [event]
    ensures Tallied(trace, connections, successes, blocks, reset)
    ensures connections == connections0 + (if event.kind == Start then 1 else 0)
    ensures successes == successes0 + (if event.kind == End then 1 else 0)
    ensures blocks == blocks0 + (if event.kind == Block then 1 else 0)
    ensures blocks + Count(next, Block) <= connections + (if reset then 1 else 0)
    ensures event.kind != Start ==> |next| == |pq| - 1
    ensures Recorded(router, draws, init, states, tops, skipped + trace, Snapshot(next, Locks(router), Cursor(vertexPos, arrivalPos, durationPos)))
    ensures PoppedInOrder(skipped + trace, event.time)
    ensures Scheduled(next, event.time, |router.nodes|)
    ensures Covered(router, init, next)
  {
    ghost var before := Snapshot(pq, Locks(router), Cursor(vertexPos0, arrivalPos0, durationPos0));
    var m;
    event, next, vertexPos, arrivalPos, durationPos, m :=
      Step(router, pq, now, draws, vertexPos0, arrivalPos0, durationPos0, init);
    ghost var after := Snapshot(next, Locks(router), Cursor(vertexPos, arrivalPos, durationPos));
    RecordStep(router, draws, init, states0, tops0, skipped + trace0, before, m, after);
    PopInOrder(skipped + trace0, now, event);
    SplitSnoc(skipped, trace0, event);
    states, tops, trace := states0 + [after], tops0 + [m], trace0 + [event];
    TallyStep(trace0, event, connections0, successes0, blocks0, reset);
    connections, successes, blocks := connections0, successes0, blocks0;
    match event.kind
    case Start =>
      connections := connections + 1;
    case End =>
      successes := successes + 1;
    case Block =>
      blocks := blocks + 1;
    case Dummy =>
  }

  /**
   * One pass of the simulation loop once it has not stopped: the warm-up
   * reset when exactly `toIgnore` arrivals have been counted and no reset
   * happened yet (the counters restart, the history so far becomes the
   * skipped part), then `CountStep`. The count reaches `toIgnore` only by
   * the initial arrival or by a popped START, so the skipped part ends
   * right after that START. The contract is the loop's invariant,
   * kept, and the loop's measure, decreased.
   */
  method Round(router: Router, pq: seq<Event>, now: real, draws: Draws, limit: nat, toIgnore: nat,
               vertexPos0: nat, arrivalPos0: nat, durationPos0: nat,
               connections0: nat, successes0: nat, blocks0: nat, ignored0: bool, ghost init: seq<set<nat>>,
               ghost states0: seq<Snapshot>, ghost tops0: seq<nat>, ghost skipped0: seq<Event>, ghost trace0: seq<Event>)
    returns (event: Event, next: seq<Event>, vertexPos: nat, arrivalPos: nat, durationPos: nat,
             connections: nat, successes: nat, blocks: nat, ignored: bool,
             ghost states: seq<Snapshot>, ghost tops: seq<nat>, ghost skipped: seq<Event>, ghost trace: seq<Event>)
    requires router.Valid()
    requires forall i :: draws.vertex(i) < |router.nodes|
    requires forall p :: Redraws(draws.vertex, p)
    requires forall i :: draws.arrival(i) > 0.0
    requires forall i :: draws.duration(i) >= 0.0
    requires connections0 <= limit
    requires Scheduled(pq, now, |router.nodes|)
    requires !ignored0 ==> 1 <= connections0 && (1 <= toIgnore <= limit ==> connections0 <= toIgnore)
    requires ignored0 ==> 1 <= toIgnore <= limit
    requires blocks0 + Count(pq, Block) <= connections0 + (if ignored0 then 1 else 0)
    requires Recorded(router, draws, init, states0, tops0, skipped0 + trace0, Snapshot(pq, Locks(router), Cursor(vertexPos0, arrivalPos0, durationPos0)))
    requires PoppedInOrder(skipped0 + trace0, now)
    requires WarmUpSplit(toIgnore, ignored0, connections0, skipped0, trace0)
    requires Tallied(trace0, connections0, successes0, blocks0, ignored0)
    requires Covered(router, init, pq)
    modifies router.Repr()
    ensures router.Valid()
    ensures Scheduled(next, event.time, |router.nodes|)
    ensures connections <= limit + 1
    ensures !ignored ==> 1 <= connections && (1 <= toIgnore <= limit ==> connections <= toIgnore)
    ensures ignored ==> 1 <= toIgnore <= limit
    ensures blocks + Count(next, Block) <= connections + (if ignored then 1 else 0)
    ensures connections > limit ==> blocks <= connections
    ensures Recorded(router, draws, init, states, tops, skipped + trace, Snapshot(next, Locks(router), Cursor(vertexPos, arrivalPos, durationPos)))
    ensures PoppedInOrder(skipped + trace, event.time)
    ensures WarmUpSplit(toIgnore, ignored, connections, skipped, trace)
    ensures Tallied(trace, connections, successes, blocks, ignored)
    ensures Covered(router, init, next)
    ensures ignored0 ==> ignored && skipped == skipped0
    ensures connections > limit ==> EndsOnStart(skipped + trace)
    ensures (ignored && !ignored0) || (ignored == ignored0 && (connections > connections0 || (connections == connections0 && |next| < |pq|)))
  {
    connections, successes, blocks, ignored, skipped, trace := connections0, successes0, blocks0, ignored0, skipped0, trace0;
    if connections == toIgnore && !ignored {
      connections, successes, blocks := 0, 0, 0;
      ignored := true;
      assert skipped + trace == trace + [];
      skipped, trace := trace, [];
    }
    event, next, vertexPos, arrivalPos, durationPos, connections, successes, blocks, states, tops, trace :=
      CountStep(router, pq, now, draws, vertexPos0, arrivalPos0, durationPos0, connections, successes, blocks, ignored,
                init, states0, tops0, skipped, trace);
  }

  /**
   * The simulation loop: from a state that satisfies the loop's invariant,
   * runs `Round` after `Round` until more than `limit` arrivals have been
   * counted, and stops there with the invariant kept.
   */
  method RunRounds(router: Router, pq0: seq<Event>, now0: real, draws: Draws, limit: nat, toIgnore: nat,
                   vertexPos0: nat, arrivalPos0: nat, durationPos0: nat,
                   connections0: nat, successes0: nat, blocks0: nat, ignored0: bool, ghost init: seq<set<nat>>,
                   ghost states0: seq<Snapshot>, ghost tops0: seq<nat>, ghost skipped0: seq<Event>, ghost trace0: seq<Event>)
    returns (pq: seq<Event>, now: real, vertexPos: nat, arrivalPos: nat, durationPos: nat,
             connections: nat, successes: nat, blocks: nat, ignored: bool,
             ghost states: seq<Snapshot>, ghost tops: seq<nat>, ghost skipped: seq<Event>, ghost trace: seq<Event>)
    requires router.Valid()
    requires forall i :: draws.vertex(i) < |router.nodes|
    requires forall p :: Redraws(draws.vertex, p)
    requires forall i :: draws.arrival(i) > 0.0
    requires forall i :: draws.duration(i) >= 0.0
    requires Scheduled(pq0, now0, |router.nodes|)
    requires connections0 <= limit + 1
    requires !ignored0 ==> 1 <= connections0 && (1 <= toIgnore <= limit ==> connections0 <= toIgnore)
    requires ignored0 ==> 1 <= toIgnore <= limit
    requires blocks0 + Count(pq0, Block) <= connections0 + (if ignored0 then 1 else 0)
    requires connections0 > limit ==> blocks0 <= connections0
    requires Recorded(router, draws, init, states0, tops0, skipped0 + trace0, Snapshot(pq0, Locks(router), Cursor(vertexPos0, arrivalPos0, durationPos0)))
    requires PoppedInOrder(skipped0 + trace0, now0)
    requires WarmUpSplit(toIgnore, ignored0, connections0, skipped0, trace0)
    requires Tallied(trace0, connections0, successes0, blocks0, ignored0)
    requires Covered(router, init, pq0)
    requires connections0 > limit ==> EndsOnStart(skipped0 + trace0)
    modifies router.Repr()
    ensures router.Valid()
    ensures Scheduled(pq, now, |router.nodes|)
    ensures limit < connections <= limit + 1
    ensures !ignored ==> 1 <= connections && (1 <= toIgnore <= limit ==> connections <= toIgnore)
    ensures ignored ==> 1 <= toIgnore <= limit
    ensures blocks <= connections
    ensures Recorded(router, draws, init, states, tops, skipped + trace, Snapshot(pq, Locks(router), Cursor(vertexPos, arrivalPos, durationPos)))
    ensures PoppedInOrder(skipped + trace, now)
    ensures WarmUpSplit(toIgnore, ignored, connections, skipped, trace)
    ensures Tallied(trace, connections, successes, blocks, ignored)
    ensures Covered(router, init, pq)
    ensures EndsOnStart(skipped + trace)
  {
    pq, now, vertexPos, arrivalPos, durationPos := pq0, now0, vertexPos0, arrivalPos0, durationPos0;
    connections, successes, blocks, ignored := connections0, successes0, blocks0, ignored0;
    states, tops, skipped, trace := states0, tops0, skipped0, trace0;
    while true
      invariant router.Valid()
      invariant Scheduled(pq, now, |router.nodes|)
      invariant connections <= limit + 1
      invariant !ignored ==> 1 <= connections && (1 <= toIgnore <= limit ==> connections <= toIgnore)
      invariant ignored ==> 1 <= toIgnore <= limit
      invariant blocks + Count(pq, Block) <= connections + (if ignored then 1 else 0)
      invariant connections > limit ==> blocks <= connections
      invariant Recorded(router, draws, init, states, tops, skipped + trace, Snapshot(pq, Locks(router), Cursor(vertexPos, arrivalPos, durationPos)))
      invariant PoppedInOrder(skipped + trace, now)
      invariant WarmUpSplit(toIgnore, ignored, connections, skipped, trace)
      invariant Tallied(trace, connections, successes, blocks, ignored)
      invariant Covered(router, init, pq)
      invariant connections > limit ==> EndsOnStart(skipped + trace)
      decreases (if ignored then 0 else 1), limit + 1 - connections, |pq|
    {
      if connections > limit {
        break;
      }
      var event;
      event, pq, vertexPos, arrivalPos, durationPos, connections, successes, blocks, ignored, states, tops, skipped, trace :=
        Round(router, pq, now, draws, limit, toIgnore, vertexPos, arrivalPos, durationPos, connections, successes, blocks, ignored,
              init, states, tops, skipped, trace);
      now := event.time;
    }
  }

  /**
   * Before the loop: the first arrival, drawn from the start of the vertex
   * and inter-arrival streams, is queued at time 0; the record opens with
   * that snapshot and the locks found.
   */
  method Open(router: Router, draws: Draws) returns (pq: seq<Event>, vertexPos: nat, arrivalPos: nat, ghost states: seq<Snapshot>)
    requires router.Valid()
    requires forall i :: draws.vertex(i) < |router.nodes|
    requires forall p :: Redraws(draws.vertex, p)
    requires forall i :: draws.arrival(i) > 0.0
    ensures Scheduled(pq, 0.0, |router.nodes|)
    ensures Count(pq, Block) == 0
    ensures Recorded(router, draws, Locks(router), states, [], [] + [], Snapshot(pq, Locks(router), Cursor(vertexPos, arrivalPos, 0)))
    ensures Covered(router, Locks(router), pq)
  {
    var src, dst;
    src, dst, vertexPos := router.GetNodes(draws.vertex, 0);
    pq := [Between(src, dst, Start, draws.arrival(0))];
    arrivalPos := 1;
    ghost var c0, c1 := Cursor(0, 0, 0), Cursor(vertexPos, arrivalPos, 0);
    assert c0.vertex == 0 && c0.arrival == 0 && c1.vertex == vertexPos && c1.arrival == 1 && c1.duration == 0;
    ArrivesIntro(draws, c0, c1, 0.0, pq[0]);
    states := [Snapshot(pq, Locks(router), c1)];
    assert Count(pq, Start) == 1 && Count(pq, Block) == 0 by {
      assert pq == [] + [pq[0]];
      CountSnoc([], pq[0]);
    }
  }

  /**
   * Runs the simulation until more than `limit` arrivals have been counted
   * since the warm-up reset, and returns the fraction of them that were
   * blocked together with the final counters. `history` is every event
   * popped, a run through the snapshots `states` from the opening one;
   * `trace` is its part since the reset, which the counters count.
   */
  method Simulate(router: Router, limit: nat, ignoreFirst: nat, draws: Draws)
    returns (ratio: real, stats: Counters, warmedUp: bool,
             ghost history: seq<Event>, ghost trace: seq<Event>, ghost states: seq<Snapshot>, ghost tops: seq<nat>, ghost last: Snapshot)
    requires router.Valid()
    requires forall i :: draws.vertex(i) < |router.nodes|
    requires forall p :: Redraws(draws.vertex, p)
    requires forall i :: draws.arrival(i) > 0.0
    requires forall i :: draws.duration(i) >= 0.0
    modifies router.Repr()
    ensures router.Valid()
    ensures stats.connections == limit + 1
    ensures stats.blocks <= stats.connections
    ensures ratio == stats.blocks as real / stats.connections as real
    ensures 0.0 <= ratio <= 1.0
    ensures warmedUp <==> 1 <= WarmUp(limit, ignoreFirst) <= limit
    ensures Recorded(router, draws, old(Locks(router)), states, tops, history, last)
    ensures last.locks == Locks(router)
    ensures forall i, j :: 0 <= i < j < |history| ==> history[i].time <= history[j].time
    ensures |trace| <= |history| && trace == history[|history| - |trace|..]
    ensures !warmedUp ==> trace == history
    ensures EndsOnStart(history)
    ensures warmedUp ==> Count(history[..|history| - |trace|], Start) + 1 == WarmUp(limit, ignoreFirst)
    ensures warmedUp ==> EndsOnStart(history[..|history| - |trace|])
    ensures stats.blocks == Count(trace, Block) && stats.successes == Count(trace, End)
    ensures stats.connections == Count(trace, Start) + (if warmedUp then 0 else 1)
    ensures Count(last.queue, Start) == 1
    ensures Covered(router, old(Locks(router)), last.queue)
  {
    var toIgnore := WarmUp(limit, ignoreFirst);
    var connectionCount: nat := 0;
    var successCount: nat := 0;
    var blockCount: nat := 0;
    var now: real := 0.0;
    var vertexPos: nat, arrivalPos: nat, durationPos: nat := 0, 0, 0;

    var pq;
    pq, vertexPos, arrivalPos, states := Open(router, draws);
    connectionCount := connectionCount + 1;
    ghost var init := Locks(router);
    ghost var skipped := [];
    history, trace, tops := [], [], [];

    var ignored;
    pq, now, vertexPos, arrivalPos, durationPos, connectionCount, successCount, blockCount, ignored, states, tops, skipped, trace :=
      RunRounds(router, pq, now, draws, limit, toIgnore, vertexPos, arrivalPos, durationPos, connectionCount, successCount, blockCount, false,
                init, states, tops, skipped, trace);

    stats := Counters(connectionCount, successCount, blockCount);
    warmedUp := ignored;
    history := skipped + trace;
    Conclude(limit, ignoreFirst, warmedUp, stats, now, skipped, trace, history);
    RatioBound(stats.blocks, stats.connections);
    ratio := stats.blocks as real / stats.connections as real;
    last := Snapshot(pq, Locks(router), Cursor(vertexPos, arrivalPos, durationPos));
  }
}
