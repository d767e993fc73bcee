/**
 * The enumeration of all simple directed paths between two points, which the source
 * delegates to a graph library (`AllDirectedPaths.getAllPaths` with simple paths only).
 * Here it is an explicit depth-first search over the route snapshot: from the current
 * point it follows every route, in snapshot order, whose target is not yet on the
 * current path; reaching the destination records the path and backtracks.
 */
module PathSearch {
  import opened Entities

  /** No element occurs twice. */
  ghost predicate NoDups<T>(s: seq<T>)
  {
    forall a, b :: 0 <= a < b < |s| ==> s[a] != s[b]
  }

  /** The targets of the given routes: every point the search can step onto. */
  function Targets(edges: seq<Route>): set<Point>
  {
    set e | e in edges :: e.to
  }

  /**
   * A path the search may return from `cur` when the points in `visited` are already
   * on the path: a non-empty chain of routes taken from `edges`, starting at `cur` and
   * ending at `dest`, none of whose targets is visited or repeated.
   */
  ghost predicate PathFrom(edges: seq<Route>, cur: Point, dest: Point, visited: set<Point>, p: seq<Route>)
  {
    && |p| >= 1
    && p[0].from == cur
    && (forall i :: 0 <= i < |p| - 1 ==> p[i].to == p[i + 1].from)
    && p[|p| - 1].to == dest
    && (forall i :: 0 <= i < |p| ==> p[i] in edges)
    && (forall i :: 0 <= i < |p| ==> p[i].to !in visited)
    && (forall i, j :: 0 <= i < j < |p| ==> p[i].to != p[j].to)
  }

  /** Puts `e` in front of every path of `ps`. */
  function Prepend(e: Route, ps: seq<seq<Route>>): (r: seq<seq<Route>>)
    ensures |r| == |ps|
    ensures forall k :: 0 <= k < |ps| ==> r[k] == [e] + ps[k]
  {
    if ps == [] then [] else [[e] + ps[0]] + Prepend(e, ps[1..])
  }

  /** All paths from `cur` to `dest` that avoid `visited`, in discovery order. */
  function Explore(edges: seq<Route>, dest: Point, visited: set<Point>, cur: Point): seq<seq<Route>>
    decreases Targets(edges) - visited, |edges| + 1
  {
    ExploreEdges(edges, dest, visited, cur, 0)
  }

  /** The paths discovered by following the routes `edges[i..]` out of `cur`, one after another. */
  function ExploreEdges(edges: seq<Route>, dest: Point, visited: set<Point>, cur: Point, i: nat): seq<seq<Route>>
    decreases Targets(edges) - visited, |edges| - i
  {
    if i >= |edges| then []
    else Branch(edges, dest, visited, cur, i) + ExploreEdges(edges, dest, visited, cur, i + 1)
  }

  /**
   * The paths whose first route is `edges[i]`: none when that route does not leave
   * `cur` or leads back onto the path, the route alone when it reaches `dest`, and
   * otherwise the route followed by every path found from its target.
   */
  function Branch(edges: seq<Route>, dest: Point, visited: set<Point>, cur: Point, i: nat): seq<seq<Route>>
    requires i < |edges|
    decreases Targets(edges) - visited, 0
  {
    var e := edges[i];
    if e.from != cur || e.to in visited then []
    else if e.to == dest then [[e]]
    else Prepend(e, Explore(edges, dest, visited + {e.to}, e.to))
  }

  /** `getAllPaths(from, to, simplePathsOnly = true, maxPathLength = null)`. */
  function AllPaths(edges: seq<Route>, from: Point, to: Point): seq<seq<Route>>
  {
    Explore(edges, to, {from}, from)
  }

  // ---------------------------------------------------------------- soundness

  lemma {:induction false} ExploreSound(edges: seq<Route>, dest: Point, visited: set<Point>, cur: Point)
    ensures forall p :: p in Explore(edges, dest, visited, cur) ==> PathFrom(edges, cur, dest, visited, p)
    decreases Targets(edges) - visited, |edges| + 1
  {
    ExploreEdgesSound(edges, dest, visited, cur, 0);
  }

  lemma {:induction false} ExploreEdgesSound(edges: seq<Route>, dest: Point, visited: set<Point>, cur: Point, i: nat)
    ensures forall p :: p in ExploreEdges(edges, dest, visited, cur, i) ==> PathFrom(edges, cur, dest, visited, p)
    decreases Targets(edges) - visited, |edges| - i
  {
    if i < |edges| {
      BranchSound(edges, dest, visited, cur, i);
      ExploreEdgesSound(edges, dest, visited, cur, i + 1);
    }
  }

  lemma {:induction false} BranchSound(edges: seq<Route>, dest: Point, visited: set<Point>, cur: Point, i: nat)
    requires i < |edges|
    ensures forall p :: p in Branch(edges, dest, visited, cur, i) ==> PathFrom(edges, cur, dest, visited, p)
    decreases Targets(edges) - visited, 0
  {
    var e := edges[i];
    if e.from == cur && e.to !in visited && e.to != dest {
      var rest := Explore(edges, dest, visited + {e.to}, e.to);
      ExploreSound(edges, dest, visited + {e.to}, e.to);
      forall p: seq<Route> | p in Branch(edges, dest, visited, cur, i)
        ensures PathFrom(edges, cur, dest, visited, p)
      {
        var k :| 0 <= k < |rest| && p == Prepend(e, rest)[k];
        var q := rest[k];
        assert PathFrom(edges, e.to, dest, visited + {e.to}, q);
        assert p == [e] + q;
        forall a | 0 <= a < |p| ensures p[a].to !in visited {
          if a > 0 { assert p[a] == q[a - 1]; }
        }
        forall a, b | 0 <= a < b < |p| ensures p[a].to != p[b].to {
          assert p[b] == q[b - 1];
          if a > 0 { assert p[a] == q[a - 1]; }
        }
        forall a | 0 <= a < |p| - 1 ensures p[a].to == p[a + 1].from {
          assert p[a + 1] == q[a];
          if a > 0 { assert p[a] == q[a - 1]; }
        }
      }
    }
  }

  // ---------------------------------------------------------------- completeness

  lemma {:induction false} BranchInExploreEdges(edges: seq<Route>, dest: Point, visited: set<Point>, cur: Point, i: nat, j: nat)
    requires i <= j < |edges|
    ensures forall p :: p in Branch(edges, dest, visited, cur, j) ==> p in ExploreEdges(edges, dest, visited, cur, i)
    decreases j - i
  {
    if i < j {
      BranchInExploreEdges(edges, dest, visited, cur, i + 1, j);
    }
  }

  /** After its first route, a path that does not stop there is a path from that route's target. */
  lemma PathFromTail(edges: seq<Route>, dest: Point, visited: set<Point>, cur: Point, p: seq<Route>)
    requires PathFrom(edges, cur, dest, visited, p) && p[0].to != dest
    ensures PathFrom(edges, p[0].to, dest, visited + {p[0].to}, p[1..])
  {
    var q := p[1..];
    forall a | 0 <= a < |q| ensures q[a].to !in visited + {p[0].to} {
      assert q[a] == p[a + 1];
    }
    forall a | 0 <= a < |q| - 1 ensures q[a].to == q[a + 1].from {
      assert q[a] == p[a + 1] && q[a + 1] == p[a + 2];
    }
    forall a, b | 0 <= a < b < |q| ensures q[a].to != q[b].to {
      assert q[a] == p[a + 1] && q[b] == p[b + 1];
    }
  }

  lemma {:induction false} ExploreComplete(edges: seq<Route>, dest: Point, visited: set<Point>, cur: Point, p: seq<Route>)
    requires PathFrom(edges, cur, dest, visited, p)
    ensures p in Explore(edges, dest, visited, cur)
    decreases |p|
  {
    var e := p[0];
    var j :| 0 <= j < |edges| && edges[j] == e;
    if e.to == dest {
      if |p| > 1 {
        assert false;
      }
      assert p == [e];
      assert p in Branch(edges, dest, visited, cur, j);
    } else {
      var q := p[1..];
      PathFromTail(edges, dest, visited, cur, p);
      ExploreComplete(edges, dest, visited + {e.to}, e.to, q);
      var rest := Explore(edges, dest, visited + {e.to}, e.to);
      var k :| 0 <= k < |rest| && rest[k] == q;
      assert Prepend(e, rest)[k] == p;
      assert p in Branch(edges, dest, visited, cur, j);
    }
    BranchInExploreEdges(edges, dest, visited, cur, 0, j);
  }

  // ---------------------------------------------------------------- no duplicates

  lemma {:induction false} ExploreEdgesStartAt(edges: seq<Route>, dest: Point, visited: set<Point>, cur: Point, i: nat)
    ensures forall p :: p in ExploreEdges(edges, dest, visited, cur, i) ==>
              |p| > 0 && exists k :: i <= k < |edges| && p[0] == edges[k]
    decreases |edges| - i
  {
    if i < |edges| {
      ExploreEdgesStartAt(edges, dest, visited, cur, i + 1);
      forall p: seq<Route> | p in Branch(edges, dest, visited, cur, i)
        ensures |p| > 0 && p[0] == edges[i]
      {
        var e := edges[i];
        if e.to != dest {
          var rest := Explore(edges, dest, visited + {e.to}, e.to);
          var k :| 0 <= k < |rest| && p == Prepend(e, rest)[k];
        }
      }
    }
  }

  lemma PrependNoDups(e: Route, ps: seq<seq<Route>>)
    requires NoDups(ps)
    ensures NoDups(Prepend(e, ps))
  {
    var r := Prepend(e, ps);
    forall a, b | 0 <= a < b < |r| ensures r[a] != r[b] {
      assert r[a][1..] == ps[a] && r[b][1..] == ps[b];
    }
  }

  lemma {:induction false} ExploreNoDups(edges: seq<Route>, dest: Point, visited: set<Point>, cur: Point)
    requires NoDups(edges)
    ensures NoDups(Explore(edges, dest, visited, cur))
    decreases Targets(edges) - visited, |edges| + 1
  {
    ExploreEdgesNoDups(edges, dest, visited, cur, 0);
  }

  lemma {:induction false} ExploreEdgesNoDups(edges: seq<Route>, dest: Point, visited: set<Point>, cur: Point, i: nat)
    requires NoDups(edges)
    ensures NoDups(ExploreEdges(edges, dest, visited, cur, i))
    decreases Targets(edges) - visited, |edges| - i
  {
    if i < |edges| {
      var here := Branch(edges, dest, visited, cur, i);
      var later := ExploreEdges(edges, dest, visited, cur, i + 1);
      BranchNoDups(edges, dest, visited, cur, i);
      ExploreEdgesNoDups(edges, dest, visited, cur, i + 1);
      ExploreEdgesStartAt(edges, dest, visited, cur, i);
      ExploreEdgesStartAt(edges, dest, visited, cur, i + 1);
      BranchInExploreEdges(edges, dest, visited, cur, i, i);
      var all := here + later;
      forall a, b | 0 <= a < b < |all| ensures all[a] != all[b] {
        if a < |here| && b >= |here| {
          var p := all[a];
          var q := all[b];
          assert q == later[b - |here|];
          assert q in later;
          var k :| i + 1 <= k < |edges| && q[0] == edges[k];
          assert p in here;
          assert p[0] == edges[i] by {
            forall p' | p' in here ensures |p'| > 0 && p'[0] == edges[i] {
              var e := edges[i];
              if e.to != dest {
                var rest := Explore(edges, dest, visited + {e.to}, e.to);
                var m :| 0 <= m < |rest| && p' == Prepend(e, rest)[m];
              }
            }
          }
        } else if b < |here| {
          assert all[a] == here[a] && all[b] == here[b];
        } else {
          assert all[a] == later[a - |here|] && all[b] == later[b - |here|];
        }
      }
    }
  }

  lemma {:induction false} BranchNoDups(edges: seq<Route>, dest: Point, visited: set<Point>, cur: Point, i: nat)
    requires NoDups(edges)
    requires i < |edges|
    ensures NoDups(Branch(edges, dest, visited, cur, i))
    decreases Targets(edges) - visited, 0
  {
    var e := edges[i];
    if e.from == cur && e.to !in visited && e.to != dest {
      ExploreNoDups(edges, dest, visited + {e.to}, e.to);
      PrependNoDups(e, Explore(edges, dest, visited + {e.to}, e.to));
    }
  }

  // ---------------------------------------------------------------- over the route table

  /** `r` is the route stored under its own key. */
  ghost predicate Stored(routes: map<RouteKey, Route>, r: Route)
  {
    KeyOf(r) in routes && routes[KeyOf(r)] == r
  }

  /**
   * A simple directed path of stored routes from `from` to `to`: a connected chain
   * that starts at `from`, ends at `to` and visits no point twice.
   */
  ghost predicate IsSimplePath(routes: map<RouteKey, Route>, from: Point, to: Point, p: seq<Route>)
  {
    && |p| >= 1
    && p[0].from == from
    && (forall i :: 0 <= i < |p| - 1 ==> p[i].to == p[i + 1].from)
    && p[|p| - 1].to == to
    && (forall i :: 0 <= i < |p| ==> Stored(routes, p[i]))
    && (forall i :: 0 <= i < |p| ==> p[i].to != from)
    && (forall i, j :: 0 <= i < j < |p| ==> p[i].to != p[j].to)
  }

  /** `edges` lists the routes of the table, each once, in some iteration order. */
  ghost predicate ListsRoutes(edges: seq<Route>, routes: map<RouteKey, Route>)
  {
    && (forall e :: e in edges <==> e in routes.Values)
    && NoDups(edges)
  }

  /**
   * Whatever order the table is listed in, the search returns every simple path
   * from `from` to `to` over the stored routes, each exactly once, and nothing else.
   */
  lemma AllPathsExactlyOnce(routes: map<RouteKey, Route>, edges: seq<Route>, from: Point, to: Point)
    requires forall k :: k in routes ==> KeyOf(routes[k]) == k
    requires ListsRoutes(edges, routes)
    ensures forall p :: p in AllPaths(edges, from, to) <==> IsSimplePath(routes, from, to, p)
    ensures NoDups(AllPaths(edges, from, to))
  {
    assert forall e :: e in edges <==> Stored(routes, e) by {
      forall e ensures e in edges <==> Stored(routes, e) {
        if e in routes.Values {
          var k :| k in routes && routes[k] == e;
        }
      }
    }
    ExploreSound(edges, to, {from}, from);
    forall p | IsSimplePath(routes, from, to, p) ensures p in AllPaths(edges, from, to) {
      ExploreComplete(edges, to, {from}, from, p);
    }
    ExploreNoDups(edges, to, {from}, from);
  }

  /** Without any stored route the search finds nothing. */
  lemma NoRoutesNoPaths(edges: seq<Route>, from: Point, to: Point)
    requires edges == []
    ensures AllPaths(edges, from, to) == []
  {
    assert AllPaths(edges, from, to) == ExploreEdges(edges, to, {from}, from, 0);
  }
}
