/** Refusing a document that contains itself (gateway/config_edit.py _has_cycle). YAML aliases make
    the loaded value a graph: containers are known by identity, and may be shared. */
module Cycles {

  /** The containers, each with its children in order. An identity that is no key is a plain value. */
  type Graph = map<nat, seq<nat>>

  /** A walk down from container to contained container. */
  ghost predicate Walk(g: Graph, w: seq<nat>) {
    && w != []
    && (forall i :: 0 <= i < |w| ==> w[i] in g)
    && (forall i :: 0 <= i < |w| - 1 ==> w[i + 1] in g[w[i]])
  }

  function Earlier(w: seq<nat>): set<nat>
    requires w != []
  {
    set i | 0 <= i < |w| - 1 :: w[i]
  }

  ghost predicate ClosesBy(g: Graph, v: nat, path: set<nat>, w: seq<nat>) {
    Walk(g, w) && w[0] == v && w[|w| - 1] in path + Earlier(w)
  }

  /** Some walk from `v` comes back to itself or to `path`. */
  ghost predicate Closes(g: Graph, v: nat, path: set<nat>) {
    exists w :: ClosesBy(g, v, path, w)
  }

  // The set shared by every call of one search.
  class Path {
    var ids: set<nat>

    constructor ()
      ensures ids == {}
    {
      ids := {};
    }
  }

  /** The search: it ends on every graph, leaves the shared path as it was, and finds a cycle
      exactly when there is one. */
  method HasCycle(g: Graph, v: nat, onPath: Path) returns (found: bool)
    modifies onPath
    ensures onPath.ids == old(onPath.ids)
    ensures found <==> Closes(g, v, old(onPath.ids))
    decreases g.Keys - onPath.ids
  {
    ghost var path := onPath.ids;
    if v !in g {
      NoWalkFromPlain(g, v, path);
      return false;
    }
    if v in onPath.ids {
      assert ClosesBy(g, v, path, [v]);
      return true;
    }
    onPath.ids := onPath.ids + {v};
    found := false;
    var i := 0;
    while i < |g[v]| && !found
      invariant i <= |g[v]|
      invariant onPath.ids == path + {v}
      invariant found <==> exists j :: 0 <= j < i && Closes(g, g[v][j], path + {v})
    {
      found := HasCycle(g, g[v][i], onPath);
      i := i + 1;
    }
    onPath.ids := onPath.ids - {v};
    ClosesThroughChild(g, v, path);
    assert onPath.ids == path;
  }

  lemma NoWalkFromPlain(g: Graph, v: nat, path: set<nat>)
    requires v !in g
    ensures !Closes(g, v, path)
  {
  }

  lemma ClosesThroughChild(g: Graph, v: nat, path: set<nat>)
    requires v in g && v !in path
    ensures Closes(g, v, path) <==> exists j :: 0 <= j < |g[v]| && Closes(g, g[v][j], path + {v})
  {
    if Closes(g, v, path) {
      var w :| ClosesBy(g, v, path, w);
      var rest := w[1..];
      assert forall i :: 0 <= i < |rest| ==> rest[i] == w[i + 1];
      assert rest != [];
      assert Earlier(w) <= Earlier(rest) + {v};
      assert ClosesBy(g, rest[0], path + {v}, rest);
      var j :| 0 <= j < |g[v]| && g[v][j] == rest[0];
    }
    if j :| 0 <= j < |g[v]| && Closes(g, g[v][j], path + {v}) {
      var rest :| ClosesBy(g, g[v][j], path + {v}, rest);
      var w := [v] + rest;
      assert w[0] in Earlier(w);
      forall x | x in Earlier(rest) ensures x in Earlier(w) {
        var i :| 0 <= i < |rest| - 1 && rest[i] == x;
        assert w[i + 1] == x;
      }
      assert ClosesBy(g, v, path, w);
    }
  }

  // ---- What it means ----

  ghost predicate Leads(g: Graph, v: nat, n: nat) {
    exists w :: Walk(g, w) && w[0] == v && w[|w| - 1] == n
  }

  /** A container that lies inside itself. */
  ghost predicate InsideItself(g: Graph, n: nat) {
    exists w :: Walk(g, w) && |w| > 1 && w[0] == n && w[|w| - 1] == n
  }

  /** A search from the root answers yes exactly when some container it can reach contains itself;
      containers that are merely shared do not count. */
  lemma CycleMeans(g: Graph, root: nat)
    ensures Closes(g, root, {}) <==> exists n :: Leads(g, root, n) && InsideItself(g, n)
  {
    if Closes(g, root, {}) {
      var w :| ClosesBy(g, root, {}, w);
      var j :| 0 <= j < |w| - 1 && w[j] == w[|w| - 1];
      var first, round := w[..j + 1], w[j..];
      assert Walk(g, first) && first[|first| - 1] == w[j];
      assert Walk(g, round) && round[|round| - 1] == w[j];
      assert Leads(g, root, w[j]) && InsideItself(g, w[j]);
    }
    if n :| Leads(g, root, n) && InsideItself(g, n) {
      var first :| Walk(g, first) && first[0] == root && first[|first| - 1] == n;
      var round :| Walk(g, round) && |round| > 1 && round[0] == n && round[|round| - 1] == n;
      var w := first + round[1..];
      Joined(g, first, round);
      assert w[|first| - 1] == n;
      assert n in Earlier(w);
      assert ClosesBy(g, root, {}, w);
    }
  }

  lemma Joined(g: Graph, first: seq<nat>, second: seq<nat>)
    requires Walk(g, first) && Walk(g, second) && first[|first| - 1] == second[0]
    ensures Walk(g, first + second[1..])
    ensures |second| > 1 ==> (first + second[1..])[|first + second[1..]| - 1] == second[|second| - 1]
  {
    var w := first + second[1..];
    forall i | 0 <= i < |w| - 1 ensures w[i + 1] in g[w[i]] {
      if i >= |first| - 1 {
        var k := i - (|first| - 1);
        assert w[i] == second[k] && w[i + 1] == second[k + 1];
      }
    }
  }

  lemma {:induction false} DistinctFits(w: seq<nat>, s: set<nat>)
    requires forall i :: 0 <= i < |w| ==> w[i] in s
    requires forall i, j :: 0 <= i < j < |w| ==> w[i] != w[j]
    ensures |w| <= |s|
    decreases |w|
  {
    if w != [] {
      var last := w[|w| - 1];
      DistinctFits(w[..|w| - 1], s - {last});
    }
  }

  lemma RepeatCloses(g: Graph, root: nat, w: seq<nat>, i: nat, j: nat)
    requires Walk(g, w) && w[0] == root && i < j < |w| && w[i] == w[j]
    ensures Closes(g, root, {})
  {
    var front := w[..j + 1];
    assert front[i] == w[i] && w[i] in Earlier(front);
    assert ClosesBy(g, root, {}, front);
  }

  /** The recursive walks that follow end: without a cycle no walk is longer than there are containers. */
  lemma WalksEnd(g: Graph, root: nat, w: seq<nat>)
    requires !Closes(g, root, {})
    requires Walk(g, w) && w[0] == root
    ensures |w| <= |g.Keys|
  {
    forall i, j | 0 <= i < j < |w| ensures w[i] != w[j] {
      if w[i] == w[j] { RepeatCloses(g, root, w, i, j); }
    }
    DistinctFits(w, g.Keys);
  }

  /** With one they do not: there are walks of every length. */
  lemma {:induction false} WalksGoOn(g: Graph, root: nat, n: nat)
    requires Closes(g, root, {})
    ensures exists w :: Walk(g, w) && w[0] == root && |w| > n
  {
    CycleMeans(g, root);
    var m :| Leads(g, root, m) && InsideItself(g, m);
    var first :| Walk(g, first) && first[0] == root && first[|first| - 1] == m;
    var round :| Walk(g, round) && |round| > 1 && round[0] == m && round[|round| - 1] == m;
    var w := Around(g, first, round, n);
  }

  lemma {:induction false} Around(g: Graph, first: seq<nat>, round: seq<nat>, n: nat) returns (w: seq<nat>)
    requires Walk(g, first) && Walk(g, round) && |round| > 1
    requires first[|first| - 1] == round[0] == round[|round| - 1]
    ensures Walk(g, w) && w[0] == first[0] && w[|w| - 1] == round[0] && |w| > n
    decreases n
  {
    if n == 0 {
      w := first;
    } else {
      var shorter := Around(g, first, round, n - 1);
      Joined(g, shorter, round);
      w := shorter + round[1..];
    }
  }
}
