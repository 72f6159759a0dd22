/**
 * The router (Advisor): an undirected graph whose vertices carry the
 * wavelength resources, a wavelength-continuity-aware path search, and
 * admission and release of connections along a path.
 */
module Routing {
  import opened Resources

  /**
   * The edge filter of the per-wavelength search: an edge between `src` and
   * `tgt` stays in the filtered graph exactly when both endpoints can use `wl`.
   */
  predicate EdgeFilter(src: Resource, tgt: Resource, wl: nat)
    reads src, tgt
    ensures EdgeFilter(src, tgt, wl) ==> wl in src.wavelengths && wl in tgt.wavelengths
    ensures wl in src.wavelengths - src.used && wl in tgt.wavelengths - tgt.used ==> EdgeFilter(src, tgt, wl)
  {
    src.CanUse(wl) && tgt.CanUse(wl)
  }

  /** The filter is symmetric, matching an undirected graph. */
  lemma EdgeFilterSymmetric(src: Resource, tgt: Resource, wl: nat)
    ensures EdgeFilter(src, tgt, wl) == EdgeFilter(tgt, src, wl)
  {
  }

  /** With NONE every edge between count-built resources is dropped. */
  lemma EdgeFilterDropsNone(src: Resource, tgt: Resource, n: nat, m: nat)
    requires src.wavelengths == Range(n) && tgt.wavelengths == Range(m)
    ensures !EdgeFilter(src, tgt, NONE)
  {
    NoneNeverUsable(src, n);
  }

  /** Some draw after position `pos` of the stream `draw` differs from the one at `pos`. */
  ghost predicate Redraws(draw: nat -> nat, pos: nat)
  {
    exists k :: pos < k && draw(k) != draw(pos)
  }

  /** Every element of `s` occurs once. */
  predicate Distinct(s: seq<nat>)
  {
    forall i, j :: 0 <= i < j < |s| ==> s[i] != s[j]
  }

  class Router {
    /** Adjacency lists of the undirected graph: `adj[u]` lists the neighbours of `u`. */
    const adj: seq<seq<nat>>
    /** The resource held by each vertex. */
    const nodes: seq<Resource>

    /** The resource objects of all vertices. */
    ghost function Repr(): set<object>
    {
      set v | 0 <= v < |nodes| :: nodes[v]
    }

    /**
     * The graph has one resource per vertex and its adjacency lists name
     * vertices; every edge is listed at both ends; each vertex owns its own
     * resource object; each resource keeps its lock invariant and, being
     * built from a count, does not carry NONE.
     */
    ghost predicate Valid()
      reads Repr()
    {
      && |adj| == |nodes|
      && (forall u, j :: 0 <= u < |adj| && 0 <= j < |adj[u]| ==> adj[u][j] < |adj| && u in adj[adj[u][j]])
      && (forall u, v :: 0 <= u < v < |nodes| ==> nodes[u] != nodes[v])
      && (forall v :: 0 <= v < |nodes| ==> nodes[v].Valid() && NONE !in nodes[v].wavelengths)
    }

    constructor (adj: seq<seq<nat>>, nodes: seq<Resource>)
      requires |adj| == |nodes|
      requires forall u, j :: 0 <= u < |adj| && 0 <= j < |adj[u]| ==> adj[u][j] < |adj| && u in adj[adj[u][j]]
      requires forall u, v :: 0 <= u < v < |nodes| ==> nodes[u] != nodes[v]
      requires forall v :: 0 <= v < |nodes| ==> nodes[v].Valid() && NONE !in nodes[v].wavelengths
      ensures Valid()
      ensures this.adj == adj && this.nodes == nodes
    {
      this.adj := adj;
      this.nodes := nodes;
    }

    /** The edge `u`–`v` survives the filter for `wl`. */
    predicate Keep(u: nat, v: nat, wl: nat)
      reads Repr()
    {
      u < |nodes| && v < |nodes| && EdgeFilter(nodes[u], nodes[v], wl)
    }

    /** The unlocked wavelengths of vertex `a`, the candidates a search from `a` tries. */
    ghost function Candidates(a: nat): set<nat>
      reads Repr()
      requires a < |nodes|
    {
      nodes[a].wavelengths - nodes[a].used
    }

    /** `p` is a walk in the graph filtered for `wl`. */
    ghost predicate IsWalk(p: seq<nat>, wl: nat)
      reads Repr()
    {
      && |p| >= 1
      && (forall i :: 0 <= i < |p| ==> p[i] < |adj|)
      && (forall i :: 0 <= i < |p| - 1 ==> p[i] < |adj| && p[i + 1] in adj[p[i]] && Keep(p[i], p[i + 1], wl))
    }

    /** Some walk of the graph filtered for `wl` leads from `a` to `b`. */
    ghost predicate Reachable(a: nat, b: nat, wl: nat)
      reads Repr()
    {
      exists p :: IsWalk(p, wl) && p[0] == a && p[|p| - 1] == b
    }

    /**
     * `p` is a route for a connection from `a` to `b` on `wl`: a walk of the
     * filtered graph without repeated vertices, from `a` to `b`, every
     * vertex of which can use `wl`.
     */
    ghost predicate IsRoute(p: seq<nat>, a: nat, b: nat, wl: nat)
      reads Repr()
    {
      && IsWalk(p, wl)
      && |p| >= 2 && p[0] == a && p[|p| - 1] == b
      && Distinct(p)
      && (forall i :: 0 <= i < |p| ==> p[i] < |nodes| && nodes[p[i]].CanUse(wl))
    }

    /** Some candidate wavelength of `a` has a walk from `a` to `b`. */
    ghost predicate Connectable(a: nat, b: nat)
      reads Repr()
    {
      a < |nodes| && b < |nodes| && a != b &&
      exists wl :: wl in Candidates(a) && Reachable(a, b, wl)
    }

    /**
     * `pred` is a breadth-first predecessor tree rooted at `a` for `wl`:
     * `reached` holds the discovered vertices, an undiscovered vertex is its
     * own predecessor, and each discovered vertex other than the root hangs
     * off a discovered neighbour through a kept edge, exactly one level deeper.
     */
    ghost predicate PredTree(a: nat, wl: nat, pred: seq<nat>, reached: set<nat>, depth: seq<nat>)
      reads Repr()
    {
      && |pred| == |nodes| && |depth| == |nodes| && a < |nodes|
      && a in reached && pred[a] == a && depth[a] == 0
      && (forall v :: v in reached ==> v < |nodes|)
      && (forall v :: 0 <= v < |nodes| && v !in reached ==> pred[v] == v)
      && (forall v {:trigger pred[v]} :: v in reached && v != a ==>
            && pred[v] in reached && pred[v] != v && pred[v] < |adj|
            && v in adj[pred[v]] && Keep(pred[v], v, wl) && depth[v] == depth[pred[v]] + 1)
    }

    /**
     * No kept edge leaves `reached`, and a kept edge climbs at most one level:
     * the levels of a breadth-first search once every discovered vertex has
     * been visited.
     */
    ghost predicate Layered(reached: set<nat>, wl: nat, depth: seq<nat>)
      reads Repr()
    {
      && |depth| == |adj| == |nodes|
      && forall u, j :: u in reached && u < |adj| && 0 <= j < |adj[u]| && Keep(u, adj[u][j], wl) ==>
           adj[u][j] in reached && depth[adj[u][j]] <= depth[u] + 1
    }

    /**
     * A walk that starts in a layered set stays in it and climbs at most one
     * level per edge.
     */
    lemma {:induction false} WalkBound(p: seq<nat>, wl: nat, reached: set<nat>, depth: seq<nat>)
      requires IsWalk(p, wl) && Layered(reached, wl, depth) && p[0] in reached
      ensures p[|p| - 1] in reached && depth[p[|p| - 1]] <= depth[p[0]] + |p| - 1
      decreases |p|
    {
      if |p| > 1 {
        var k :| 0 <= k < |adj[p[0]]| && adj[p[0]][k] == p[1];
        assert p[1] in reached && depth[p[1]] <= depth[p[0]] + 1;
        assert IsWalk(p[1..], wl) by {
          forall i | 0 <= i < |p[1..]| - 1
            ensures p[1..][i] < |adj| && p[1..][i + 1] in adj[p[1..][i]] && Keep(p[1..][i], p[1..][i + 1], wl)
          {
            assert p[1..][i] == p[i + 1] && p[1..][i + 1] == p[i + 2];
          }
        }
        WalkBound(p[1..], wl, reached, depth);
      }
    }

    /** No walk from `a` to `b` in the graph filtered for `wl` has fewer vertices than `path`. */
    ghost predicate Shortest(path: seq<nat>, a: nat, b: nat, wl: nat)
      reads Repr()
    {
      forall p :: IsWalk(p, wl) && p[0] == a && p[|p| - 1] == b ==> |path| <= |p|
    }

    /*
     * The same notions read off a snapshot `locks` of the locked wavelengths,
     * one set per vertex, instead of off the resources themselves. They read
     * no mutable state, so they can describe the router at any earlier moment.
     */

    /** The edge `u`–`v` survives the filter for `wl` when the vertices have `locks` locked. */
    ghost predicate KeepAt(locks: seq<set<nat>>, u: nat, v: nat, wl: nat)
    {
      && u < |nodes| && v < |nodes| && u < |locks| && v < |locks|
      && Usable(nodes[u], locks[u], wl) && Usable(nodes[v], locks[v], wl)
    }

    /** `p` is a walk in the graph filtered for `wl` under `locks`. */
    ghost predicate WalkAt(locks: seq<set<nat>>, p: seq<nat>, wl: nat)
    {
      && |p| >= 1
      && (forall i :: 0 <= i < |p| ==> p[i] < |adj|)
      && (forall i :: 0 <= i < |p| - 1 ==> p[i] < |adj| && p[i + 1] in adj[p[i]] && KeepAt(locks, p[i], p[i + 1], wl))
    }

    /** `p` is a route from `a` to `b` on `wl` under `locks`. */
    ghost predicate RouteAt(locks: seq<set<nat>>, p: seq<nat>, a: nat, b: nat, wl: nat)
    {
      && WalkAt(locks, p, wl)
      && |p| >= 2 && p[0] == a && p[|p| - 1] == b
      && Distinct(p)
      && (forall i :: 0 <= i < |p| ==> p[i] < |nodes| && p[i] < |locks| && Usable(nodes[p[i]], locks[p[i]], wl))
    }

    /** No walk from `a` to `b` filtered for `wl` under `locks` is shorter than `path`. */
    ghost predicate ShortestAt(locks: seq<set<nat>>, path: seq<nat>, a: nat, b: nat, wl: nat)
    {
      forall p :: WalkAt(locks, p, wl) && p[0] == a && p[|p| - 1] == b ==> |path| <= |p|
    }

    /** Under `locks`, some wavelength unlocked at `a` has a filtered walk from `a` to `b`. */
    ghost predicate ConnectableAt(locks: seq<set<nat>>, a: nat, b: nat)
    {
      && a < |nodes| && b < |nodes| && a != b && a < |locks|
      && exists wl, p :: wl in nodes[a].wavelengths - locks[a] && WalkAt(locks, p, wl) && p[0] == a && p[|p| - 1] == b
    }

    /**
     * Read off a snapshot that records exactly the current locks, the
     * snapshot notions are the live ones.
     */
    lemma SnapshotAgrees(locks: seq<set<nat>>, a: nat, b: nat)
      requires |locks| == |nodes|
      requires forall v :: 0 <= v < |nodes| ==> locks[v] == nodes[v].used
      ensures forall p, wl :: IsWalk(p, wl) <==> WalkAt(locks, p, wl)
      ensures Connectable(a, b) <==> ConnectableAt(locks, a, b)
      ensures forall p, wl :: IsRoute(p, a, b, wl) <==> RouteAt(locks, p, a, b, wl)
      ensures forall p, wl :: Shortest(p, a, b, wl) <==> ShortestAt(locks, p, a, b, wl)
    {
      forall u, v, wl
        ensures Keep(u, v, wl) <==> KeepAt(locks, u, v, wl)
      {
      }
      assert forall p, wl :: IsWalk(p, wl) <==> WalkAt(locks, p, wl);
      if Connectable(a, b) {
        var wl :| wl in Candidates(a) && Reachable(a, b, wl);
        var p :| IsWalk(p, wl) && p[0] == a && p[|p| - 1] == b;
        assert WalkAt(locks, p, wl) && wl in nodes[a].wavelengths - locks[a];
      }
      if ConnectableAt(locks, a, b) {
        var wl, p :| wl in nodes[a].wavelengths - locks[a] && WalkAt(locks, p, wl) && p[0] == a && p[|p| - 1] == b;
        assert IsWalk(p, wl) && wl in Candidates(a);
        assert Reachable(a, b, wl);
      }
    }

    /**
     * Breadth-first search from `a` over the graph filtered for `wl`,
     * recording the predecessor of each vertex on its tree edge; every
     * vertex starts as its own predecessor. The discovered vertices end up in
     * breadth-first levels: a tree edge climbs exactly one level, any other
     * kept edge at most one.
     */
    method Bfs(a: nat, wl: nat) returns (pred: seq<nat>, ghost reached: set<nat>, ghost depth: seq<nat>)
      requires Valid() && a < |nodes|
      ensures |pred| == |nodes| && pred[a] == a
      ensures PredTree(a, wl, pred, reached, depth)
      ensures Layered(reached, wl, depth)
    {
      var n := |nodes|;
      pred := [];
      var i := 0;
      while i < n
        invariant 0 <= i <= n && |pred| == i
        invariant forall v :: 0 <= v < i ==> pred[v] == v
      {
        pred := pred + [i];
        i := i + 1;
      }
      var visited: set<nat> := {a};
      var queue := [a];
      ghost var done: set<nat> := {};
      depth := seq(n, _ => 0);
      VisitedBound(visited, n);
      while queue != []
        invariant Searching(a, wl, pred, visited, queue, depth, done)
        invariant |visited| <= n
        decreases n - |visited|, |queue|
      {
        var u := queue[0];
        ghost var pred0, visited0, queue0, depth0 := pred, visited, queue, depth;
        queue := queue[1..];
        pred, visited, queue, depth := VisitNeighbours(a, wl, u, pred, visited, queue, depth);
        StepCovers(a, wl, pred0, visited0, queue0, depth0, done, pred, visited, queue, depth);
        StepLayers(a, wl, pred0, visited0, queue0, depth0, done, pred, visited, queue, depth);
        done := done + {u};
        VisitedBound(visited, n);
      }
      reached := visited;
    }

    /**
     * The state of the search between two visits: a tree over the discovered
     * vertices, the queue holds discovered vertices in level order, every
     * discovered vertex is finished or queued, and every kept edge out of a
     * finished vertex leads to a discovered vertex at most one level up.
     */
    ghost predicate Searching(a: nat, wl: nat, pred: seq<nat>, visited: set<nat>, queue: seq<nat>, depth: seq<nat>, done: set<nat>)
      reads Repr()
    {
      && PredTree(a, wl, pred, visited, depth)
      && (forall k :: 0 <= k < |queue| ==> queue[k] in visited)
      && (forall v :: v in visited ==> v in done || v in queue)
      && done <= visited
      && (forall u, j :: u in done && u < |adj| && 0 <= j < |adj[u]| && Keep(u, adj[u][j], wl) ==>
            adj[u][j] in visited && depth[adj[u][j]] <= depth[u] + 1)
      && Levelled(queue, depth, done)
    }

    /**
     * What one visit of the queue's front `queue0[0]` does, as `VisitNeighbours`
     * states it for the queue without its front.
     */
    ghost predicate Visit(a: nat, wl: nat, pred0: seq<nat>, visited0: set<nat>, queue0: seq<nat>, depth0: seq<nat>,
                          pred: seq<nat>, visited: set<nat>, queue: seq<nat>, depth: seq<nat>)
      reads Repr()
      requires |adj| == |nodes| && queue0 != [] && queue0[0] in visited0 && PredTree(a, wl, pred0, visited0, depth0)
    {
      var u := queue0[0];
      && PredTree(a, wl, pred, visited, depth)
      && visited0 <= visited
      && (forall x {:trigger pred[x]} {:trigger depth[x]} :: x in visited0 ==> pred[x] == pred0[x] && depth[x] == depth0[x])
      && (forall v :: v in visited && v !in visited0 ==> pred[v] == u && depth[v] == depth0[u] + 1)
      && |queue| >= |queue0| - 1 && queue[..|queue0| - 1] == queue0[1..]
      && (forall k :: |queue0| - 1 <= k < |queue| ==> queue[k] in visited && queue[k] !in visited0)
      && (forall v :: v in visited && v !in visited0 ==> v in queue)
      && (forall j :: 0 <= j < |adj[u]| && Keep(u, adj[u][j], wl) ==> adj[u][j] in visited)
    }

    /** After a visit the queue still holds discovered vertices and covers all unfinished ones. */
    lemma StepCovers(a: nat, wl: nat, pred0: seq<nat>, visited0: set<nat>, queue0: seq<nat>, depth0: seq<nat>, done: set<nat>,
                     pred: seq<nat>, visited: set<nat>, queue: seq<nat>, depth: seq<nat>)
      requires |adj| == |nodes| && queue0 != [] && Searching(a, wl, pred0, visited0, queue0, depth0, done)
      requires Visit(a, wl, pred0, visited0, queue0, depth0, pred, visited, queue, depth)
      ensures forall k :: 0 <= k < |queue| ==> queue[k] in visited
      ensures forall v :: v in visited ==> v in done + {queue0[0]} || v in queue
      ensures done + {queue0[0]} <= visited
    {
      var m := |queue0| - 1;
      assert forall k :: 0 <= k < m ==> queue[k] == queue0[k + 1];
      forall v | v in visited0 && v !in done + {queue0[0]}
        ensures v in queue
      {
        var k :| 0 <= k < |queue0| && queue0[k] == v;
        assert queue[k - 1] == v;
      }
    }

    /** After a visit the finished vertices are layered and the queue is levelled. */
    lemma StepLayers(a: nat, wl: nat, pred0: seq<nat>, visited0: set<nat>, queue0: seq<nat>, depth0: seq<nat>, done: set<nat>,
                     pred: seq<nat>, visited: set<nat>, queue: seq<nat>, depth: seq<nat>)
      requires |adj| == |nodes| && queue0 != [] && Searching(a, wl, pred0, visited0, queue0, depth0, done)
      requires Visit(a, wl, pred0, visited0, queue0, depth0, pred, visited, queue, depth)
      ensures forall u, j :: u in done + {queue0[0]} && u < |adj| && 0 <= j < |adj[u]| && Keep(u, adj[u][j], wl) ==>
        adj[u][j] in visited && depth[adj[u][j]] <= depth[u] + 1
      ensures Levelled(queue, depth, done + {queue0[0]})
    {
      var u := queue0[0];
      forall j | 0 <= j < |adj[u]| && Keep(u, adj[u][j], wl)
        ensures depth[adj[u][j]] <= depth[u] + 1
      {
        var w := adj[u][j];
        if w in visited0 && w !in done {
          var k :| 0 <= k < |queue0| && queue0[k] == w;
          assert depth0[queue0[k]] <= depth0[queue0[0]] + 1;
        }
      }
      LevelledStep(queue0, depth0, done, queue, depth);
    }

    /**
     * One step of the search: every kept edge from `u` to an undiscovered
     * vertex becomes a tree edge, so that vertex gets `u` as predecessor and
     * the next level, and is discovered and queued; vertices discovered
     * before keep their predecessor and level.
     */
    method VisitNeighbours(a: nat, wl: nat, u: nat, pred0: seq<nat>, visited0: set<nat>, queue0: seq<nat>, ghost depth0: seq<nat>)
      returns (pred: seq<nat>, visited: set<nat>, queue: seq<nat>, ghost depth: seq<nat>)
      requires |adj| == |nodes| && PredTree(a, wl, pred0, visited0, depth0) && u in visited0
      requires forall j :: 0 <= j < |adj[u]| ==> adj[u][j] < |adj|
      ensures PredTree(a, wl, pred, visited, depth)
      ensures visited0 <= visited
      ensures forall x {:trigger pred[x]} {:trigger depth[x]} :: x in visited0 ==> pred[x] == pred0[x] && depth[x] == depth0[x]
      ensures forall v :: v in visited && v !in visited0 ==> pred[v] == u && depth[v] == depth0[u] + 1
      ensures |queue| >= |queue0| && queue[..|queue0|] == queue0
      ensures forall k :: |queue0| <= k < |queue| ==> queue[k] in visited && queue[k] !in visited0
      ensures forall v :: v in visited && v !in visited0 ==> v in queue
      ensures |visited| - |visited0| == |queue| - |queue0|
      ensures forall j :: 0 <= j < |adj[u]| && Keep(u, adj[u][j], wl) ==> adj[u][j] in visited
    {
      pred, visited, queue, depth := pred0, visited0, queue0, depth0;
      var nbrs := adj[u];
      var j := 0;
      while j < |nbrs|
        invariant 0 <= j <= |nbrs|
        invariant PredTree(a, wl, pred, visited, depth)
        invariant visited0 <= visited
        invariant forall x {:trigger pred[x]} {:trigger depth[x]} :: x in visited0 ==> pred[x] == pred0[x] && depth[x] == depth0[x]
        invariant forall v :: v in visited && v !in visited0 ==> pred[v] == u && depth[v] == depth0[u] + 1
        invariant |queue| >= |queue0| && queue[..|queue0|] == queue0
        invariant forall k :: |queue0| <= k < |queue| ==> queue[k] in visited && queue[k] !in visited0
        invariant forall v :: v in visited && v !in visited0 ==> v in queue
        invariant |visited| - |visited0| == |queue| - |queue0|
        invariant forall k :: 0 <= k < j && Keep(u, nbrs[k], wl) ==> nbrs[k] in visited
      {
        var v := nbrs[j];
        ghost var visitedj := visited;
        if Keep(u, v, wl) && v !in visited {
          Discover(a, wl, pred, visited, depth, u, v);
          pred := pred[v := u];
          depth := depth[v := depth[u] + 1];
          visited := visited + {v};
          queue := queue + [v];
        }
        KeptGrow(u, wl, nbrs, j, visitedj, visited);
        j := j + 1;
      }
    }

    /** Once neighbour `j` has been looked at, every kept neighbour up to and including it is discovered. */
    lemma KeptGrow(u: nat, wl: nat, nbrs: seq<nat>, j: nat, visited0: set<nat>, visited: set<nat>)
      requires j < |nbrs| && visited0 <= visited
      requires forall k :: 0 <= k < j && Keep(u, nbrs[k], wl) ==> nbrs[k] in visited0
      requires Keep(u, nbrs[j], wl) ==> nbrs[j] in visited
      ensures forall k :: 0 <= k < j + 1 && Keep(u, nbrs[k], wl) ==> nbrs[k] in visited
    {
    }

    /** Discovering `v` through a kept edge from the discovered `u` extends the tree by one level. */
    lemma Discover(a: nat, wl: nat, pred: seq<nat>, visited: set<nat>, depth: seq<nat>, u: nat, v: nat)
      requires PredTree(a, wl, pred, visited, depth) && u in visited && u < |adj|
      requires v in adj[u] && Keep(u, v, wl) && v !in visited
      ensures PredTree(a, wl, pred[v := u], visited + {v}, depth[v := depth[u] + 1])
    {
    }

    /**
     * Rebuilds the vertex path from `a` to `b` by walking predecessors back
     * from `b` and inserting each one at the front. In a layered tree the
     * result is a shortest route.
     */
    method TracePath(a: nat, b: nat, wl: nat, pred: seq<nat>, ghost reached: set<nat>, ghost depth: seq<nat>)
      returns (path: seq<nat>)
      requires |adj| == |nodes| && PredTree(a, wl, pred, reached, depth) && b in reached && b != a
      requires Layered(reached, wl, depth)
      ensures IsRoute(path, a, b, wl)
      ensures Shortest(path, a, b, wl)
    {
      path := [b];
      var p := pred[b];
      while p != a
        invariant p in reached
        invariant forall i :: 0 <= i < |path| ==> path[i] in reached && path[i] != a
        invariant |path| >= 1 && path[|path| - 1] == b && pred[path[0]] == p
        invariant forall i :: 0 <= i < |path| - 1 ==> pred[path[i + 1]] == path[i]
        invariant forall i, j :: 0 <= i < j < |path| ==> depth[path[i]] < depth[path[j]]
        invariant depth[path[0]] == depth[p] + 1
        invariant depth[path[0]] + |path| - 1 == depth[b]
        decreases depth[p]
      {
        path := [p] + path;
        p := pred[p];
      }
      TracedRoute(a, b, wl, pred, reached, depth, path);
      path := [p] + path;
      DepthShortest(a, b, wl, reached, depth, path);
    }

    /**
     * The vertices `tail` leading back from `b` to a child of `a` through
     * the search tree, one level at a time, make with `a` a shortest route.
     */
    lemma TracedRoute(a: nat, b: nat, wl: nat, pred: seq<nat>, reached: set<nat>, depth: seq<nat>, tail: seq<nat>)
      requires |adj| == |nodes| && PredTree(a, wl, pred, reached, depth) && Layered(reached, wl, depth)
      requires |tail| >= 1 && tail[|tail| - 1] == b
      requires forall i :: 0 <= i < |tail| ==> tail[i] in reached && tail[i] != a
      requires pred[tail[0]] == a
      requires forall i :: 0 <= i < |tail| - 1 ==> pred[tail[i + 1]] == tail[i]
      requires forall i, j :: 0 <= i < j < |tail| ==> depth[tail[i]] < depth[tail[j]]
      requires depth[tail[0]] + |tail| - 1 == depth[b]
      ensures IsRoute([a] + tail, a, b, wl) && |[a] + tail| == depth[b] + 1
    {
      var path := [a] + tail;
      assert forall i, j :: 0 <= i < j < |path| ==> depth[path[i]] < depth[path[j]] by {
        forall i, j | 0 <= i < j < |path| ensures depth[path[i]] < depth[path[j]] {
          if i == 0 {
            assert depth[path[j]] == depth[pred[path[j]]] + 1;
          } else {
            assert path[i] == tail[i - 1] && path[j] == tail[j - 1];
          }
        }
      }
      forall i | 0 <= i < |path| - 1
        ensures path[i] < |adj| && path[i + 1] in adj[path[i]] && Keep(path[i], path[i + 1], wl)
      {
        assert pred[path[i + 1]] == path[i];
      }
      forall i | 0 <= i < |path| ensures path[i] < |nodes| && nodes[path[i]].CanUse(wl) {
        if i == 0 {
          assert Keep(path[0], path[1], wl);
        } else {
          assert Keep(path[i - 1], path[i], wl);
        }
      }
      assert depth[tail[0]] == 1;
    }

    /**
     * A walk from the root `a` to a vertex at depth `d` of a layered search
     * has at least `d + 1` vertices.
     */
    lemma DepthShortest(a: nat, b: nat, wl: nat, reached: set<nat>, depth: seq<nat>, path: seq<nat>)
      requires Layered(reached, wl, depth) && a in reached && a < |depth| && depth[a] == 0
      requires b < |depth| && |path| == depth[b] + 1
      ensures Shortest(path, a, b, wl)
    {
      forall q | IsWalk(q, wl) && q[0] == a && q[|q| - 1] == b
        ensures |path| <= |q|
      {
        WalkBound(q, wl, reached, depth);
      }
    }

    /** When the search never reached `b`, no walk of the filtered graph leads from `a` to `b`. */
    lemma NotReached(a: nat, b: nat, wl: nat, pred: seq<nat>, reached: set<nat>, depth: seq<nat>)
      requires PredTree(a, wl, pred, reached, depth) && Layered(reached, wl, depth)
      requires b < |nodes| && b != a && pred[b] == b
      ensures !Reachable(a, b, wl)
    {
      assert b !in reached;
      forall p | IsWalk(p, wl) && p[0] == a
        ensures p[|p| - 1] != b
      {
        WalkBound(p, wl, reached, depth);
      }
    }

    /**
     * Tries each unlocked wavelength of `a`, in no particular order: searches
     * the graph filtered for it, rebuilds the path to `b` and checks again
     * that every vertex on it can use the wavelength. Returns the first such
     * path with its wavelength, or an empty path with NONE.
     */
    method PathBetween(a: nat, b: nat) returns (path: seq<nat>, wl: nat)
      requires Valid()
      ensures wl == NONE <==> path == []
      ensures a >= |nodes| || b >= |nodes| || |nodes| < 2 || a == b ==> path == []
      ensures wl != NONE ==> a < |nodes| && wl in Candidates(a) && IsRoute(path, a, b, wl)
      ensures wl != NONE ==> Shortest(path, a, b, wl)
      ensures wl == NONE && a < |nodes| && b < |nodes| && a != b ==>
        forall w :: w in Candidates(a) ==> !Reachable(a, b, w)
    {
      var n := |nodes|;
      if a >= n || b >= n || n < 2 {
        return [], NONE;
      }
      var candidates := nodes[a].AvailableWavelengths();
      ghost var tried: set<nat> := {};
      while candidates != {}
        invariant candidates + tried == Candidates(a)
        invariant a != b ==> forall w :: w in tried ==> !Reachable(a, b, w)
        decreases candidates
      {
        var w :| w in candidates;
        candidates := candidates - {w};
        tried := tried + {w};
        var route, found := TryWavelength(a, b, w);
        if found {
          return route, w;
        }
      }
      return [], NONE;
    }

    /**
     * One round of `PathBetween`: searches the graph filtered for `wl` from
     * `a` and, when `b` was reached, rebuilds the route and re-checks it.
     */
    method TryWavelength(a: nat, b: nat, wl: nat) returns (route: seq<nat>, found: bool)
      requires Valid() && a < |nodes| && b < |nodes|
      ensures found ==> IsRoute(route, a, b, wl) && Shortest(route, a, b, wl)
      ensures !found ==> route == [] && (a != b ==> !Reachable(a, b, wl))
    {
      var pred;
      ghost var reached, depth;
      pred, reached, depth := Bfs(a, wl);
      if pred[b] == b {
        if a != b {
          NotReached(a, b, wl, pred, reached, depth);
        }
        return [], false;
      }
      route, found := Rebuild(a, b, wl, pred, reached, depth);
    }

    /**
     * Rebuilds the route to `b` from the search tree and re-checks that every
     * vertex on it can use `wl`; the re-check never fails, since the search
     * only follows kept edges.
     */
    method Rebuild(a: nat, b: nat, wl: nat, pred: seq<nat>, ghost reached: set<nat>, ghost depth: seq<nat>)
      returns (route: seq<nat>, found: bool)
      requires |adj| == |nodes| && PredTree(a, wl, pred, reached, depth) && b in reached && b != a
      requires Layered(reached, wl, depth)
      ensures found && IsRoute(route, a, b, wl) && Shortest(route, a, b, wl)
    {
      route := TracePath(a, b, wl, pred, reached, depth);
      found := UsableAlong(route, wl);
    }

    /** Whether every vertex of `route` can use `wl`. */
    method UsableAlong(route: seq<nat>, wl: nat) returns (ok: bool)
      requires forall i :: 0 <= i < |route| ==> route[i] < |nodes|
      ensures ok <==> forall i :: 0 <= i < |route| ==> nodes[route[i]].CanUse(wl)
    {
      ok := true;
      var k := 0;
      while k < |route|
        invariant 0 <= k <= |route|
        invariant ok <==> forall i :: 0 <= i < k ==> nodes[route[i]].CanUse(wl)
      {
        if !nodes[route[k]].CanUse(wl) {
          ok := false;
        }
        k := k + 1;
      }
    }

    /** Whether `PathBetween` finds a wavelength. */
    method HasPathBetween(a: nat, b: nat) returns (r: bool)
      requires Valid()
      ensures r <==> Connectable(a, b)
    {
      var path, wl := PathBetween(a, b);
      r := wl != NONE;
      if r {
        assert IsWalk(path, wl) && path[0] == a && path[|path| - 1] == b;
      }
    }

    /**
     * Finds a path and wavelength as `PathBetween` does and locks the
     * wavelength on every vertex of the path.
     */
    method MakeConnection(a: nat, b: nat) returns (path: seq<nat>, wl: nat)
      requires Valid()
      modifies Repr()
      ensures Valid()
      ensures wl == NONE <==> path == []
      ensures wl != NONE <==> old(Connectable(a, b))
      ensures wl != NONE ==> a < |nodes| && old(wl in Candidates(a) && IsRoute(path, a, b, wl))
      ensures wl != NONE ==> old(Shortest(path, a, b, wl))
      ensures forall v :: 0 <= v < |nodes| ==>
        nodes[v].used == if v in path then old(nodes[v].used) + {wl} else old(nodes[v].used)
    {
      var found, w := PathBetween(a, b);
      if w == NONE {
        assert !Connectable(a, b);
        return [], NONE;
      }
      assert IsWalk(found, w) && found[0] == a && found[|found| - 1] == b;
      path, wl := found, w;
      LockPath(path, wl);
    }

    /** Locks `wl` on every vertex of a repetition-free path all of whose vertices can use it. */
    method LockPath(path: seq<nat>, wl: nat)
      requires Valid() && Distinct(path)
      requires forall i :: 0 <= i < |path| ==> path[i] < |nodes| && nodes[path[i]].CanUse(wl)
      modifies Repr()
      ensures Valid()
      ensures forall v :: 0 <= v < |nodes| ==>
        nodes[v].used == if v in path then old(nodes[v].used) + {wl} else old(nodes[v].used)
    {
      var i := 0;
      while i < |path|
        invariant 0 <= i <= |path|
        invariant forall v :: 0 <= v < |nodes| ==> nodes[v].Valid()
        invariant forall v :: 0 <= v < |nodes| ==>
          nodes[v].used == if v in path[..i] then old(nodes[v].used) + {wl} else old(nodes[v].used)
      {
        var r := nodes[path[i]];
        assert path[i] !in path[..i];
        assert r.CanUse(wl);
        var _ := r.Lock(wl);
        assert path[..i + 1] == path[..i] + [path[i]];
        i := i + 1;
      }
      assert path[..i] == path;
    }

    /** Releases `wl` on every vertex of `path`. */
    method RemoveConnection(path: seq<nat>, wl: nat)
      requires Valid()
      requires forall k :: 0 <= k < |path| ==> path[k] < |nodes|
      modifies Repr()
      ensures Valid()
      ensures forall v :: 0 <= v < |nodes| ==>
        nodes[v].used == if v in path then old(nodes[v].used) - {wl} else old(nodes[v].used)
    {
      var i := 0;
      while i < |path|
        invariant 0 <= i <= |path|
        invariant forall v :: 0 <= v < |nodes| ==> nodes[v].Valid()
        invariant forall v :: 0 <= v < |nodes| ==>
          nodes[v].used == if v in path[..i] then old(nodes[v].used) - {wl} else old(nodes[v].used)
      {
        nodes[path[i]].Release(wl);
        assert path[..i + 1] == path[..i] + [path[i]];
        i := i + 1;
      }
      assert path[..i] == path;
    }

    /** Removing a connection twice is removing it once. */
    method RemoveConnectionTwice(path: seq<nat>, wl: nat)
      requires Valid()
      requires forall k :: 0 <= k < |path| ==> path[k] < |nodes|
      modifies Repr()
      ensures Valid()
      ensures forall v :: 0 <= v < |nodes| ==>
        nodes[v].used == if v in path then old(nodes[v].used) - {wl} else old(nodes[v].used)
    {
      RemoveConnection(path, wl);
      RemoveConnection(path, wl);
    }

    /**
     * Without converters, removing a connection right after making it
     * restores every resource: the route only crosses vertices where the
     * wavelength was unlocked.
     */
    method ConnectThenDisconnect(a: nat, b: nat) returns (path: seq<nat>, wl: nat)
      requires Valid()
      requires forall v :: 0 <= v < |nodes| ==> !nodes[v].hasConverter
      modifies Repr()
      ensures Valid()
      ensures wl != NONE <==> old(Connectable(a, b))
      ensures forall v :: 0 <= v < |nodes| ==> nodes[v].used == old(nodes[v].used)
    {
      path, wl := MakeConnection(a, b);
      assert forall v :: v in path ==> wl !in old(nodes[v].used) by {
        forall v | v in path ensures wl !in old(nodes[v].used) {
          var i :| 0 <= i < |path| && path[i] == v;
        }
      }
      RemoveConnection(path, wl);
    }

    /**
     * Draws two endpoints from the uniform vertex draws starting at `pos`,
     * redrawing the second one while it equals the first; `next` is the
     * position of the first unused draw.
     */
    method GetNodes(draw: nat -> nat, pos: nat) returns (a: nat, b: nat, next: nat)
      requires forall i :: draw(i) < |nodes|
      requires Redraws(draw, pos)
      ensures pos + 2 <= next
      ensures a == draw(pos) && b == draw(next - 1) && a != b
      ensures a < |nodes| && b < |nodes|
      ensures forall k :: pos < k < next - 1 ==> draw(k) == a
    {
      ghost var last :| pos < last && draw(last) != draw(pos);
      a := draw(pos);
      b := draw(pos + 1);
      next := pos + 2;
      while a == b
        invariant pos + 2 <= next <= last + 1
        invariant b == draw(next - 1)
        invariant forall k :: pos < k < next - 1 ==> draw(k) == a
        decreases last + 1 - next
      {
        b := draw(next);
        next := next + 1;
      }
    }
  }

  /**
   * The queue of a breadth-first search is in level order and spans at most
   * two levels, and no finished vertex lies above its front.
   */
  ghost predicate Levelled(queue: seq<nat>, depth: seq<nat>, done: set<nat>)
  {
    && (forall k :: 0 <= k < |queue| ==> queue[k] < |depth|)
    && (forall v :: v in done ==> v < |depth|)
    && (forall i, j :: 0 <= i <= j < |queue| ==> depth[queue[i]] <= depth[queue[j]])
    && (forall k :: 0 <= k < |queue| ==> depth[queue[k]] <= depth[queue[0]] + 1)
    && (queue != [] ==> forall v :: v in done ==> depth[v] <= depth[queue[0]])
  }

  /**
   * Taking the front off a levelled queue and appending vertices of the
   * next level keeps it levelled, with the front now finished.
   */
  lemma LevelledStep(queue0: seq<nat>, depth0: seq<nat>, done: set<nat>, queue: seq<nat>, depth: seq<nat>)
    requires Levelled(queue0, depth0, done) && queue0 != []
    requires |depth| == |depth0|
    requires |queue| >= |queue0| - 1 && queue[..|queue0| - 1] == queue0[1..]
    requires forall k :: 0 <= k < |queue0| ==> depth[queue0[k]] == depth0[queue0[k]]
    requires forall v :: v in done ==> depth[v] == depth0[v]
    requires forall k :: |queue0| - 1 <= k < |queue| ==> queue[k] < |depth| && depth[queue[k]] == depth0[queue0[0]] + 1
    ensures Levelled(queue, depth, done + {queue0[0]})
  {
    var m := |queue0| - 1;
    assert forall k :: 0 <= k < m ==> queue[k] == queue0[k + 1] && depth[queue[k]] == depth0[queue0[k + 1]];
    if queue != [] {
      assert depth0[queue0[0]] <= depth[queue[0]];
    }
  }

  /** A set of vertices below `n` has at most `n` elements. */
  lemma {:induction false} VisitedBound(visited: set<nat>, n: nat)
    requires forall v :: v in visited ==> v < n
    ensures |visited| <= n
  {
    if n > 0 {
      VisitedBound(visited - {n - 1}, n - 1);
    }
  }
}
