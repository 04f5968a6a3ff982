/**
 * The task graphs that `gulp.task(name, deps, fn)` declares, and the way
 * gulp 3's orchestrator sequences them: before a task runs, its
 * dependency array is walked left to right, each dependency is sequenced
 * the same way first, and a task already in the sequence is not added
 * again. Concurrency is not modelled: this is the sequential order.
 */
module TaskGraph {

  /** Each declared task mapped to its dependency array, in declaration order. */
  type Graph<T> = map<T, seq<T>>

  /** Every dependency a task names is itself a declared task. */
  predicate Closed<T>(g: Graph<T>) {
    forall t, d | t in g && d in g[t] :: d in g
  }

  /** `rank` witnesses that `g` is closed and acyclic: every dependency ranks strictly lower than its dependent. */
  predicate Sound<T>(g: Graph<T>, rank: map<T, nat>) {
    && Closed(g)
    && g.Keys <= rank.Keys
    && forall t, d | t in g && d in g[t] :: rank[d] < rank[t]
  }

  /** `p` follows dependency edges, from `p[0]` to its last element. */
  ghost predicate IsPath<T>(g: Graph<T>, p: seq<T>) {
    |p| >= 1 && forall i | 0 <= i < |p| - 1 :: p[i] in g && p[i + 1] in g[p[i]]
  }

  /** A ranked graph has no cycle: a path of one edge or more never returns to where it started. */
  lemma {:induction false} NoCycle<T>(g: Graph<T>, rank: map<T, nat>, p: seq<T>)
    requires Sound(g, rank) && IsPath(g, p) && |p| >= 2
    ensures p[0] in rank && p[|p| - 1] in rank && rank[p[|p| - 1]] < rank[p[0]]
    ensures p[0] != p[|p| - 1]
  {
    if |p| > 2 {
      assert IsPath(g, p[1..]);
      NoCycle(g, rank, p[1..]);
    }
  }

  /** The tasks reachable from `t` along dependency edges, `t` included. */
  function Reach<T>(g: Graph<T>, rank: map<T, nat>, t: T): (r: set<T>)
    requires Sound(g, rank) && t in g
    ensures t in r
    ensures forall x | x in r :: x in g && rank[x] <= rank[t]
    decreases rank[t] + 1, 0
  {
    {t} + ReachAll(g, rank, g[t], rank[t])
  }

  /** The tasks reachable from any of `ts`. */
  function ReachAll<T>(g: Graph<T>, rank: map<T, nat>, ts: seq<T>, bound: nat): (r: set<T>)
    requires Sound(g, rank) && forall d | d in ts :: d in g && rank[d] < bound
    ensures forall d | d in ts :: d in r
    ensures forall x | x in r :: x in g && rank[x] < bound
    decreases bound, |ts|
  {
    if ts == [] then {} else Reach(g, rank, ts[0]) + ReachAll(g, rank, ts[1..], bound)
  }

  /** What is reachable from a member of `ts` is reachable from `ts`. */
  lemma {:induction false} ReachAllHas<T>(g: Graph<T>, rank: map<T, nat>, ts: seq<T>, bound: nat, d: T)
    requires Sound(g, rank) && forall x | x in ts :: x in g && rank[x] < bound
    requires d in ts
    ensures Reach(g, rank, d) <= ReachAll(g, rank, ts, bound)
    decreases |ts|
  {
    if ts[0] != d {
      assert d in ts[1..];
      ReachAllHas(g, rank, ts[1..], bound, d);
    }
  }

  /** Whatever a dependency reaches, its dependent reaches too. */
  lemma ReachDep<T>(g: Graph<T>, rank: map<T, nat>, t: T, d: T)
    requires Sound(g, rank) && t in g && d in g[t]
    ensures d in g && Reach(g, rank, d) <= Reach(g, rank, t)
  {
    ReachAllHas(g, rank, g[t], rank[t], d);
  }

  /** Each task reaches every task of its dependency array. */
  lemma DepsReached<T>(g: Graph<T>, rank: map<T, nat>, t: T)
    requires Sound(g, rank) && t in g
    ensures forall d | d in g[t] :: d in Reach(g, rank, t)
  {
  }

  /** `s` holds the dependencies of each of its declared tasks. */
  ghost predicate DepClosed<T>(g: Graph<T>, s: set<T>) {
    forall x, d | x in s && x in g && d in g[x] :: d in s
  }

  /** What is reachable is closed under dependency. */
  lemma {:induction false} ReachClosed<T>(g: Graph<T>, rank: map<T, nat>, t: T)
    requires Sound(g, rank) && t in g
    ensures DepClosed(g, Reach(g, rank, t))
    decreases rank[t] + 1, 0
  {
    ReachAllClosed(g, rank, g[t], rank[t]);
  }

  lemma {:induction false} ReachAllClosed<T>(g: Graph<T>, rank: map<T, nat>, ts: seq<T>, bound: nat)
    requires Sound(g, rank) && forall d | d in ts :: d in g && rank[d] < bound
    ensures DepClosed(g, ReachAll(g, rank, ts, bound))
    decreases bound, |ts|
  {
    if ts != [] {
      ReachClosed(g, rank, ts[0]);
      ReachAllClosed(g, rank, ts[1..], bound);
    }
  }

  /** What is reachable from `t` lies in every dependency-closed set that holds `t`: it is the least such set. */
  lemma {:induction false} ReachLeast<T>(g: Graph<T>, rank: map<T, nat>, t: T, s: set<T>)
    requires Sound(g, rank) && t in g && t in s && DepClosed(g, s)
    ensures Reach(g, rank, t) <= s
    decreases rank[t] + 1, 0
  {
    ReachAllLeast(g, rank, g[t], rank[t], s);
  }

  lemma {:induction false} ReachAllLeast<T>(g: Graph<T>, rank: map<T, nat>, ts: seq<T>, bound: nat, s: set<T>)
    requires Sound(g, rank) && forall d | d in ts :: d in g && rank[d] < bound
    requires (forall d | d in ts :: d in s) && DepClosed(g, s)
    ensures ReachAll(g, rank, ts, bound) <= s
    decreases bound, |ts|
  {
    if ts != [] {
      ReachLeast(g, rank, ts[0], s);
      ReachAllLeast(g, rank, ts[1..], bound, s);
    }
  }

  /** No task occurs twice. */
  ghost predicate NoDup<T>(s: seq<T>) {
    forall i, j | 0 <= i < j < |s| :: s[i] != s[j]
  }

  /** Every task in `o` is declared and comes after all of its dependencies. */
  ghost predicate DepsFirst<T>(g: Graph<T>, o: seq<T>) {
    forall i | 0 <= i < |o| :: o[i] in g && forall d | d in g[o[i]] :: d in o[..i]
  }

  /** The orchestrator's sequencing of `t` after what is already sequenced in `done`. */
  function Visit<T>(g: Graph<T>, rank: map<T, nat>, t: T, done: seq<T>): (r: seq<T>)
    requires Sound(g, rank) && t in g
    ensures |done| <= |r| && r[..|done|] == done
    ensures t in r
    decreases rank[t] + 1, 0
  {
    if t in done then done
    else VisitAll(g, rank, g[t], rank[t], done) + [t]
  }

  /** Sequences each of `ts` in turn, left to right. */
  function VisitAll<T>(g: Graph<T>, rank: map<T, nat>, ts: seq<T>, bound: nat, done: seq<T>): (r: seq<T>)
    requires Sound(g, rank) && forall d | d in ts :: d in g && rank[d] < bound
    ensures |done| <= |r| && r[..|done|] == done
    ensures forall d | d in ts :: d in r
    decreases bound, |ts|
  {
    if ts == [] then done
    else
      var m := Visit(g, rank, ts[0], done);
      var r := VisitAll(g, rank, ts[1..], bound, m);
      assert r[..|m|] == m;
      assert forall d | d in ts :: d == ts[0] || d in ts[1..];
      r
  }

  /** Sequencing keeps the sequence free of repeats and dependency-first, and adds only tasks reachable from `t`. */
  lemma {:induction false} VisitSound<T>(g: Graph<T>, rank: map<T, nat>, t: T, done: seq<T>)
    requires Sound(g, rank) && t in g && NoDup(done) && DepsFirst(g, done)
    ensures NoDup(Visit(g, rank, t, done)) && DepsFirst(g, Visit(g, rank, t, done))
    ensures forall x | x in Visit(g, rank, t, done) && x !in done :: x in Reach(g, rank, t)
    decreases rank[t] + 1, 0
  {
    if t !in done {
      var m := VisitAll(g, rank, g[t], rank[t], done);
      VisitAllSound(g, rank, g[t], rank[t], done);
      assert t !in m;
      var r := m + [t];
      assert r == Visit(g, rank, t, done);
      forall i | 0 <= i < |r|
        ensures r[i] in g && forall d | d in g[r[i]] :: d in r[..i]
      {
        if i < |m| {
          assert r[..i] == m[..i];
        } else {
          assert r[..i] == m;
        }
      }
    }
  }

  lemma {:induction false} VisitAllSound<T>(g: Graph<T>, rank: map<T, nat>, ts: seq<T>, bound: nat, done: seq<T>)
    requires Sound(g, rank) && forall d | d in ts :: d in g && rank[d] < bound
    requires NoDup(done) && DepsFirst(g, done)
    ensures NoDup(VisitAll(g, rank, ts, bound, done)) && DepsFirst(g, VisitAll(g, rank, ts, bound, done))
    ensures forall x | x in VisitAll(g, rank, ts, bound, done) && x !in done :: x in ReachAll(g, rank, ts, bound)
    decreases bound, |ts|
  {
    if ts != [] {
      var m := Visit(g, rank, ts[0], done);
      VisitSound(g, rank, ts[0], done);
      VisitAllSound(g, rank, ts[1..], bound, m);
    }
  }

  /** A dependency-first sequence holds the dependencies of everything in it. */
  lemma DepsFirstClosed<T>(g: Graph<T>, o: seq<T>)
    requires DepsFirst(g, o)
    ensures DepClosed(g, set x | x in o)
  {
    forall x, d | x in o && x in g && d in g[x] ensures d in o {
      var i :| 0 <= i < |o| && o[i] == x;
      assert d in o[..i];
    }
  }

  /**
   * The order in which running `t` executes tasks: each task reachable from
   * `t` exactly once, nothing else, every task after its dependencies, `t` last.
   */
  function RunOrder<T>(g: Graph<T>, rank: map<T, nat>, t: T): (o: seq<T>)
    requires Sound(g, rank) && t in g
    ensures NoDup(o) && DepsFirst(g, o)
    ensures |o| > 0 && o[|o| - 1] == t
    ensures forall x | x in o :: x in Reach(g, rank, t)
    ensures forall x | x in Reach(g, rank, t) :: x in o
  {
    VisitSound(g, rank, t, []);
    var o := Visit(g, rank, t, []);
    DepsFirstClosed(g, o);
    ReachLeast(g, rank, t, set x | x in o);
    o
  }

  /** In a dependency-first order without repeats, a dependency of `x` is present and every occurrence of it precedes `x`. */
  lemma DependencyBefore<T>(g: Graph<T>, o: seq<T>, x: T, d: T)
    requires DepsFirst(g, o) && NoDup(o) && x in o && x in g && d in g[x]
    ensures d in o
    ensures forall i, j | 0 <= i < |o| && 0 <= j < |o| && o[i] == d && o[j] == x :: i < j
  {
    forall i, j | 0 <= i < |o| && 0 <= j < |o| && o[i] == d && o[j] == x ensures i < j {
      assert d in o[..j];
      var k :| 0 <= k < j && o[k] == d;
      assert i == k;
    }
    var j :| 0 <= j < |o| && o[j] == x;
    assert d in o[..j];
  }
}
