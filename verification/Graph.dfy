/** Finite directed graphs, given as sets of edges: reachability, cycles and topological orders. */
module Graph {
  import opened Database

  /** p is a non-empty walk along edges of E. */
  ghost predicate IsPath<T>(E: set<(T, T)>, p: seq<T>) {
    |p| > 0 && forall i :: 0 <= i < |p| - 1 ==> (p[i], p[i + 1]) in E
  }

  /** There is a walk of length zero or more from a to b. */
  ghost predicate Reaches<T(!new)>(E: set<(T, T)>, a: T, b: T) {
    exists p: seq<T> :: IsPath(E, p) && p[0] == a && p[|p| - 1] == b
  }

  /** There is a walk of length one or more from a to b. */
  ghost predicate ReachesByEdge<T(!new)>(E: set<(T, T)>, a: T, b: T) {
    exists w :: (a, w) in E && Reaches(E, w, b)
  }

  ghost predicate Acyclic<T(!new)>(E: set<(T, T)>) {
    forall v :: !ReachesByEdge(E, v, v)
  }

  ghost predicate Closed<T>(E: set<(T, T)>, S: set<T>) {
    forall e :: e in E && e.0 in S ==> e.1 in S
  }

  lemma ReachesSelf<T(!new)>(E: set<(T, T)>, a: T)
    ensures Reaches(E, a, a)
  {
    assert IsPath(E, [a]);
  }

  lemma ReachesCons<T(!new)>(E: set<(T, T)>, a: T, b: T, c: T)
    requires (a, b) in E && Reaches(E, b, c)
    ensures Reaches(E, a, c)
  {
    var p :| IsPath(E, p) && p[0] == b && p[|p| - 1] == c;
    var q := [a] + p;
    forall i | 0 <= i < |q| - 1 ensures (q[i], q[i + 1]) in E {
      if i > 0 { assert (p[i - 1], p[i - 1 + 1]) in E; }
    }
    assert IsPath(E, q) && q[0] == a && q[|q| - 1] == c;
  }

  lemma PathTail<T(!new)>(E: set<(T, T)>, p: seq<T>)
    requires IsPath(E, p) && |p| > 1
    ensures (p[0], p[1]) in E && IsPath(E, p[1..])
  {
    assert (p[0], p[0 + 1]) in E;
    forall i | 0 <= i < |p[1..]| - 1 ensures (p[1..][i], p[1..][i + 1]) in E {
      assert (p[i + 1], p[i + 1 + 1]) in E;
    }
  }

  lemma {:induction false} PathTrans<T(!new)>(E: set<(T, T)>, p: seq<T>, c: T)
    requires IsPath(E, p) && Reaches(E, p[|p| - 1], c)
    ensures Reaches(E, p[0], c)
    decreases |p|
  {
    if |p| > 1 {
      PathTail(E, p);
      PathTrans(E, p[1..], c);
      ReachesCons(E, p[0], p[1], c);
    }
  }

  lemma ReachesTrans<T(!new)>(E: set<(T, T)>, a: T, b: T, c: T)
    requires Reaches(E, a, b) && Reaches(E, b, c)
    ensures Reaches(E, a, c)
  {
    var p :| IsPath(E, p) && p[0] == a && p[|p| - 1] == b;
    PathTrans(E, p, c);
  }

  lemma ReachesSnoc<T(!new)>(E: set<(T, T)>, a: T, b: T, c: T)
    requires Reaches(E, a, b) && (b, c) in E
    ensures Reaches(E, a, c)
  {
    ReachesSelf(E, c);
    ReachesCons(E, b, c, c);
    ReachesTrans(E, a, b, c);
  }

  lemma {:induction false} ClosedHoldsPath<T(!new)>(E: set<(T, T)>, S: set<T>, p: seq<T>)
    requires Closed(E, S) && IsPath(E, p) && p[0] in S
    ensures p[|p| - 1] in S
    decreases |p|
  {
    if |p| > 1 {
      PathTail(E, p);
      assert (p[0], p[1]).1 in S;
      ClosedHoldsPath(E, S, p[1..]);
    }
  }

  /** A closed set that holds a holds everything a reaches. */
  lemma ClosedHolds<T(!new)>(E: set<(T, T)>, S: set<T>, a: T, b: T)
    requires Closed(E, S) && a in S && Reaches(E, a, b)
    ensures b in S
  {
    var p :| IsPath(E, p) && p[0] == a && p[|p| - 1] == b;
    ClosedHoldsPath(E, S, p);
  }

  lemma ReachesMonotone<T(!new)>(E: set<(T, T)>, F: set<(T, T)>, a: T, b: T)
    requires E <= F && Reaches(E, a, b)
    ensures Reaches(F, a, b)
  {
    var p :| IsPath(E, p) && p[0] == a && p[|p| - 1] == b;
    assert IsPath(F, p);
  }

  lemma CycleMonotone<T(!new)>(E: set<(T, T)>, F: set<(T, T)>, v: T)
    requires E <= F && ReachesByEdge(E, v, v)
    ensures ReachesByEdge(F, v, v)
  {
    var w :| (v, w) in E && Reaches(E, w, v);
    ReachesMonotone(E, F, w, v);
  }

  /** Deleting edges never closes a cycle. */
  lemma AcyclicSubset<T(!new)>(E: set<(T, T)>, F: set<(T, T)>)
    requires E <= F && Acyclic(F)
    ensures Acyclic(E)
  {
    forall v | ReachesByEdge(E, v, v) ensures ReachesByEdge(F, v, v) {
      CycleMonotone(E, F, v);
    }
  }

  lemma {:induction false} PathThroughNewEdge<T(!new)>(E: set<(T, T)>, u: T, v: T, p: seq<T>)
    requires IsPath(E + {(u, v)}, p)
    ensures Reaches(E, p[0], p[|p| - 1]) || (Reaches(E, p[0], u) && Reaches(E, v, p[|p| - 1]))
    decreases |p|
  {
    if |p| == 1 {
      ReachesSelf(E, p[0]);
    } else {
      PathTail(E + {(u, v)}, p);
      PathThroughNewEdge(E, u, v, p[1..]);
      var b := p[|p| - 1];
      if (p[0], p[1]) in E {
        if Reaches(E, p[1], b) {
          ReachesCons(E, p[0], p[1], b);
        } else {
          ReachesCons(E, p[0], p[1], u);
        }
      } else {
        ReachesSelf(E, u);
      }
    }
  }

  lemma CycleThroughNewEdge<T(!new)>(E: set<(T, T)>, u: T, v: T, x: T)
    requires ReachesByEdge(E + {(u, v)}, x, x)
    ensures ReachesByEdge(E, x, x) || Reaches(E, v, u)
  {
    var F := E + {(u, v)};
    var w :| (x, w) in F && Reaches(F, w, x);
    var p :| IsPath(F, p) && p[0] == w && p[|p| - 1] == x;
    PathThroughNewEdge(E, u, v, p);
    if (x, w) in E && !Reaches(E, w, x) {
      ReachesCons(E, x, w, u);
      ReachesTrans(E, v, x, u);
    }
  }

  /** In an acyclic graph, a new edge from u to v closes a cycle exactly when v already reaches u. */
  lemma AcyclicAfterAdding<T(!new)>(E: set<(T, T)>, u: T, v: T)
    requires Acyclic(E)
    ensures Acyclic(E + {(u, v)}) <==> !Reaches(E, v, u)
  {
    var F := E + {(u, v)};
    if Reaches(E, v, u) {
      ReachesMonotone(E, F, v, u);
      assert (u, v) in F;
      assert ReachesByEdge(F, u, u);
    }
    forall x | ReachesByEdge(F, x, x) ensures Reaches(E, v, u) {
      CycleThroughNewEdge(E, u, v, x);
    }
  }

  lemma {:induction false} PathStaysInPart<T(!new)>(E: set<(T, T)>, F: set<(T, T)>, S: set<T>, p: seq<T>)
    requires forall e :: e in E ==> e.0 !in S && e.1 !in S
    requires forall e :: e in F ==> e.0 in S && e.1 in S
    requires IsPath(E + F, p)
    ensures if p[0] in S then IsPath(F, p) && p[|p| - 1] in S else IsPath(E, p) && p[|p| - 1] !in S
    decreases |p|
  {
    if |p| > 1 {
      PathTail(E + F, p);
      PathStaysInPart(E, F, S, p[1..]);
      var G := if p[0] in S then F else E;
      forall i | 0 <= i < |p| - 1 ensures (p[i], p[i + 1]) in G {
        if i > 0 { assert (p[1..][i - 1], p[1..][i - 1 + 1]) in G; }
      }
    }
  }

  lemma CycleInPart<T(!new)>(E: set<(T, T)>, F: set<(T, T)>, S: set<T>, x: T)
    requires forall e :: e in E ==> e.0 !in S && e.1 !in S
    requires forall e :: e in F ==> e.0 in S && e.1 in S
    requires ReachesByEdge(E + F, x, x)
    ensures ReachesByEdge(E, x, x) || ReachesByEdge(F, x, x)
  {
    var w :| (x, w) in E + F && Reaches(E + F, w, x);
    var p :| IsPath(E + F, p) && p[0] == w && p[|p| - 1] == x;
    PathStaysInPart(E, F, S, p);
    var G := if w in S then F else E;
    assert Reaches(G, w, x) && (x, w) in G;
  }

  /** Two graphs on disjoint vertices are acyclic together exactly when each is. */
  lemma AcyclicDisjointUnion<T(!new)>(E: set<(T, T)>, F: set<(T, T)>, S: set<T>)
    requires forall e :: e in E ==> e.0 !in S && e.1 !in S
    requires forall e :: e in F ==> e.0 in S && e.1 in S
    ensures Acyclic(E + F) <==> Acyclic(E) && Acyclic(F)
  {
    if Acyclic(E + F) {
      AcyclicSubset(E, E + F);
      AcyclicSubset(F, E + F);
    }
    forall x | ReachesByEdge(E + F, x, x) ensures ReachesByEdge(E, x, x) || ReachesByEdge(F, x, x) {
      CycleInPart(E, F, S, x);
    }
  }

  /** The edges of E renamed by m. */
  ghost function Image<A, B>(E: set<(A, A)>, m: map<A, B>): set<(B, B)>
    requires forall e :: e in E ==> e.0 in m && e.1 in m
  {
    set e | e in E :: (m[e.0], m[e.1])
  }

  ghost predicate Injective<A, B>(m: map<A, B>) {
    forall x, y :: x in m && y in m && m[x] == m[y] ==> x == y
  }

  lemma {:induction false} PathBack<A(!new), B(!new)>(E: set<(A, A)>, m: map<A, B>, q: seq<B>, a: A)
    requires forall e :: e in E ==> e.0 in m && e.1 in m
    requires Injective(m) && IsPath(Image(E, m), q) && a in m && q[0] == m[a]
    ensures exists b :: b in m && m[b] == q[|q| - 1] && Reaches(E, a, b)
    decreases |q|
  {
    if |q| == 1 {
      ReachesSelf(E, a);
    } else {
      PathTail(Image(E, m), q);
      var e :| e in E && (m[e.0], m[e.1]) == (q[0], q[1]);
      assert e.0 == a;
      PathBack(E, m, q[1..], e.1);
      var b :| b in m && m[b] == q[|q| - 1] && Reaches(E, e.1, b);
      assert (a, e.1) in E;
      ReachesCons(E, a, e.1, b);
    }
  }

  lemma {:induction false} PathForward<A(!new), B(!new)>(E: set<(A, A)>, m: map<A, B>, p: seq<A>)
    requires forall e :: e in E ==> e.0 in m && e.1 in m
    requires IsPath(E, p) && p[0] in m
    ensures p[|p| - 1] in m && Reaches(Image(E, m), m[p[0]], m[p[|p| - 1]])
    decreases |p|
  {
    if |p| == 1 {
      ReachesSelf(Image(E, m), m[p[0]]);
    } else {
      PathTail(E, p);
      assert (p[0], p[1]).1 in m;
      PathForward(E, m, p[1..]);
      assert (m[(p[0], p[1]).0], m[(p[0], p[1]).1]) in Image(E, m);
      ReachesCons(Image(E, m), m[p[0]], m[p[1]], m[p[|p| - 1]]);
    }
  }

  lemma CycleForward<A(!new), B(!new)>(E: set<(A, A)>, m: map<A, B>, v: A)
    requires forall e :: e in E ==> e.0 in m && e.1 in m
    requires ReachesByEdge(E, v, v)
    ensures v in m && ReachesByEdge(Image(E, m), m[v], m[v])
  {
    var w :| (v, w) in E && Reaches(E, w, v);
    var p :| IsPath(E, p) && p[0] == w && p[|p| - 1] == v;
    var e := (v, w);
    assert e in E && e.0 in m && e.1 in m;
    PathForward(E, m, p);
    assert (m[e.0], m[e.1]) in Image(E, m);
  }

  lemma CycleBack<A(!new), B(!new)>(E: set<(A, A)>, m: map<A, B>, x: B)
    requires forall e :: e in E ==> e.0 in m && e.1 in m
    requires Injective(m) && ReachesByEdge(Image(E, m), x, x)
    ensures exists v :: ReachesByEdge(E, v, v)
  {
    var F := Image(E, m);
    var y :| (x, y) in F && Reaches(F, y, x);
    var e :| e in E && (m[e.0], m[e.1]) == (x, y);
    var q :| IsPath(F, q) && q[0] == y && q[|q| - 1] == x;
    PathBack(E, m, q, e.1);
    var b :| b in m && m[b] == x && Reaches(E, e.1, b);
    assert b == e.0 && (e.0, e.1) in E;
    assert ReachesByEdge(E, e.0, e.0);
  }

  /** Renaming vertices one-to-one neither makes nor breaks cycles. */
  lemma AcyclicImage<A(!new), B(!new)>(E: set<(A, A)>, m: map<A, B>)
    requires forall e :: e in E ==> e.0 in m && e.1 in m
    requires Injective(m)
    ensures Acyclic(Image(E, m)) <==> Acyclic(E)
  {
    forall v | ReachesByEdge(E, v, v) ensures !Acyclic(Image(E, m)) {
      CycleForward(E, m, v);
    }
    forall x | ReachesByEdge(Image(E, m), x, x) ensures !Acyclic(E) {
      CycleBack(E, m, x);
    }
  }

  // Topological orders

  /** Every vertex occurs once, and every edge points to a vertex listed earlier. */
  ghost predicate IsTopologicalOrder<T(!new)>(E: set<(T, T)>, N: set<T>, order: seq<T>) {
    Distinct(order)
    && (forall x :: x in order <==> x in N)
    && (forall i, j :: 0 <= i < |order| && 0 <= j < |order| && (order[i], order[j]) in E ==> j < i)
  }

  /** The vertices of N that v reaches by at least one edge. */
  ghost function Below<T(!new)>(E: set<(T, T)>, N: set<T>, v: T): set<T> {
    set w | w in N && ReachesByEdge(E, v, w)
  }

  lemma BelowShrinks<T(!new)>(E: set<(T, T)>, N: set<T>, v: T, w: T)
    requires Acyclic(E) && (v, w) in E && w in N
    ensures |Below(E, N, w)| < |Below(E, N, v)|
  {
    ReachesSelf(E, w);
    assert ReachesByEdge(E, v, w);
    assert !ReachesByEdge(E, w, w);
    forall x | x in Below(E, N, w) ensures x in Below(E, N, v) {
      var y :| (w, y) in E && Reaches(E, y, x);
      ReachesCons(E, w, y, x);
      assert ReachesByEdge(E, v, x);
    }
    SubsetIsSmaller(Below(E, N, w), Below(E, N, v), w);
  }

  lemma SubsetIsSmaller<T>(a: set<T>, b: set<T>, x: T)
    requires a <= b && x in b && x !in a
    ensures |a| < |b|
  {
    assert b == a + (b - a);
    assert |b| == |a| + |b - a|;
    assert x in b - a;
  }

  lemma {:induction false} SmallestBelow<T(!new)>(E: set<(T, T)>, N: set<T>, M: set<T>) returns (v: T)
    requires M != {}
    ensures v in M && forall w :: w in M ==> |Below(E, N, v)| <= |Below(E, N, w)|
    decreases M
  {
    v :| v in M;
    if M != {v} {
      var u := SmallestBelow(E, N, M - {v});
      if |Below(E, N, u)| < |Below(E, N, v)| {
        v := u;
      }
    }
  }

  lemma {:induction false} OrderByDepth<T(!new)>(E: set<(T, T)>, N: set<T>, M: set<T>) returns (order: seq<T>)
    requires Acyclic(E) && M <= N
    ensures IsTopologicalOrder(E, M, order)
    decreases M
  {
    if M == {} {
      order := [];
    } else {
      var v := SmallestBelow(E, N, M);
      var rest := OrderByDepth(E, N, M - {v});
      order := [v] + rest;
      forall x ensures x in order <==> x in M {
        assert x in order <==> x == v || x in rest;
      }
      forall i, j | 0 <= i < |order| && 0 <= j < |order| && (order[i], order[j]) in E ensures j < i {
        if i == 0 {
          assert order[j] in M;
          BelowShrinks(E, N, v, order[j]);
          assert false;
        }
      }
    }
  }

  lemma {:induction false} OrderDescends<T(!new)>(E: set<(T, T)>, order: seq<T>, p: seq<T>, i: nat, j: nat)
    requires forall e :: e in E ==> e.0 in order && e.1 in order
    requires Distinct(order)
    requires forall i, j :: 0 <= i < |order| && 0 <= j < |order| && (order[i], order[j]) in E ==> j < i
    requires IsPath(E, p) && i < |order| && j < |order| && order[i] == p[0] && order[j] == p[|p| - 1]
    ensures j <= i
    decreases |p|
  {
    if |p| > 1 {
      PathTail(E, p);
      assert (p[0], p[1]).1 in order;
      var k :| 0 <= k < |order| && order[k] == p[1];
      OrderDescends(E, order, p[1..], k, j);
    }
  }

  lemma OrderedHasNoCycle<T(!new)>(E: set<(T, T)>, N: set<T>, order: seq<T>, v: T, w: T)
    requires forall e :: e in E ==> e.0 in N && e.1 in N
    requires IsTopologicalOrder(E, N, order) && (v, w) in E
    ensures !Reaches(E, w, v)
  {
    var e := (v, w);
    assert e in E && e.0 in order && e.1 in order;
    var i :| 0 <= i < |order| && order[i] == v;
    var k :| 0 <= k < |order| && order[k] == w;
    if Reaches(E, w, v) {
      var p :| IsPath(E, p) && p[0] == w && p[|p| - 1] == v;
      OrderDescends(E, order, p, k, i);
    }
  }

  /** A finite graph on N is acyclic exactly when it has a topological order. */
  lemma AcyclicIffOrdered<T(!new)>(E: set<(T, T)>, N: set<T>)
    requires forall e :: e in E ==> e.0 in N && e.1 in N
    ensures Acyclic(E) <==> exists order :: IsTopologicalOrder(E, N, order)
  {
    if Acyclic(E) {
      var order := OrderByDepth(E, N, N);
    }
    forall order, v, w | IsTopologicalOrder(E, N, order) && (v, w) in E ensures !Reaches(E, w, v) {
      OrderedHasNoCycle(E, N, order, v, w);
    }
  }
}
