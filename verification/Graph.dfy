/** Connections between named ends, the walks they allow, and graphs grown one node at a time. */
module Graph {
  import opened Basics

  /** A connection between two ends, whatever names the ends. */
  datatype Link<+T> = Link(from: T, to: T, fromHandle: Handle, toHandle: Handle)

  /** The names of handles; `Other` is any name but the four. */
  datatype Handle = Output | Input | IfTrue | IfFalse | Other(name: string)

  // ---------------------------------------------------------------- renaming the ends

  /** The connections whose two ends have a counterpart, between those counterparts, in order. */
  function Relink<A, B>(edges: seq<Link<A>>, at: map<A, B>): seq<Link<B>>
    decreases |edges|
  {
    if edges == [] then []
    else
      var e := edges[|edges| - 1];
      Relink(edges[..|edges| - 1], at) +
      (if e.from in at && e.to in at then [Link(at[e.from], at[e.to], e.fromHandle, e.toHandle)] else [])
  }

  lemma {:induction false} RelinkTwice<A, B, C>(edges: seq<Link<A>>, f: map<A, B>, g: map<B, C>)
    ensures Relink(Relink(edges, f), g) == Relink(edges, Compose(f, g))
    decreases |edges|
  {
    if edges != [] {
      var n := |edges| - 1;
      RelinkTwice(edges[..n], f, g);
      var once := Relink(edges, f);
      var e := edges[n];
      if e.from in f && e.to in f {
        assert once[..|once| - 1] == Relink(edges[..n], f);
      } else {
        assert once == Relink(edges[..n], f);
      }
    }
  }

  function Compose<A, B, C>(f: map<A, B>, g: map<B, C>): map<A, C> {
    map a | a in f && f[a] in g :: g[f[a]]
  }

  /** When every end has a counterpart, the connections correspond one to one, in order. */
  lemma {:induction false} RelinkAll<A, B>(edges: seq<Link<A>>, at: map<A, B>)
    requires forall k :: 0 <= k < |edges| ==> edges[k].from in at && edges[k].to in at
    ensures |Relink(edges, at)| == |edges|
    ensures forall k :: 0 <= k < |edges| ==>
              Relink(edges, at)[k] == Link(at[edges[k].from], at[edges[k].to], edges[k].fromHandle, edges[k].toHandle)
    decreases |edges|
  {
    if edges != [] {
      RelinkAll(edges[..|edges| - 1], at);
    }
  }

  lemma {:induction false} RelinkIntoValues<A, B>(edges: seq<Link<A>>, at: map<A, B>, k: nat)
    requires k < |Relink(edges, at)|
    ensures exists a :: a in at && at[a] == Relink(edges, at)[k].from
    ensures exists a :: a in at && at[a] == Relink(edges, at)[k].to
    decreases |edges|
  {
    var n := |edges| - 1;
    if k < |Relink(edges[..n], at)| {
      RelinkIntoValues(edges[..n], at, k);
    }
  }

  method RelinkEdges<A(==), B>(from: seq<Link<A>>, at: map<A, B>) returns (edges: seq<Link<B>>)
    ensures edges == Relink(from, at)
  {
    edges := [];
    for k := 0 to |from|
      invariant edges == Relink(from[..k], at)
    {
      var e := from[k];
      assert from[..k + 1][..k] == from[..k];
      if e.from in at && e.to in at {
        edges := edges + [Link(at[e.from], at[e.to], e.fromHandle, e.toHandle)];
      }
    }
    assert from[..|from|] == from;
  }

  /** Every connection of the copy comes from one whose ends are both named. */
  lemma {:induction false} RelinkOrigin<A, B>(edges: seq<Link<A>>, at: map<A, B>, e: Link<B>)
    requires e in Relink(edges, at)
    ensures exists d :: d in edges && d.from in at && d.to in at
                        && e == Link(at[d.from], at[d.to], d.fromHandle, d.toHandle)
    decreases |edges|
  {
    var n := |edges| - 1;
    if e in Relink(edges[..n], at) {
      RelinkOrigin(edges[..n], at, e);
      var d :| d in edges[..n] && d.from in at && d.to in at
               && e == Link(at[d.from], at[d.to], d.fromHandle, d.toHandle);
      assert d in edges;
    } else {
      assert edges[n] in edges;
    }
  }

  lemma {:induction false} RelinkImage<A, B>(edges: seq<Link<A>>, at: map<A, B>, d: Link<A>)
    requires d in edges && d.from in at && d.to in at
    ensures Link(at[d.from], at[d.to], d.fromHandle, d.toHandle) in Relink(edges, at)
    decreases |edges|
  {
    var n := |edges| - 1;
    if d != edges[n] {
      assert d in edges[..n];
      RelinkImage(edges[..n], at, d);
    }
  }

  // ---------------------------------------------------------------- walks

  ghost predicate Walk<T(!new)>(edges: seq<Link<T>>, w: seq<Link<T>>) {
    && (forall i :: 0 <= i < |w| ==> w[i] in edges)
    && forall i :: 0 < i < |w| ==> w[i - 1].to == w[i].from
  }

  ghost predicate WalkFrom<T(!new)>(edges: seq<Link<T>>, w: seq<Link<T>>, a: T, b: T) {
    && Walk(edges, w)
    && if w == [] then a == b else w[0].from == a && w[|w| - 1].to == b
  }

  ghost predicate Reach<T(!new)>(edges: seq<Link<T>>, a: T, b: T) {
    exists w :: WalkFrom(edges, w, a, b)
  }

  ghost predicate Cycle<T(!new)>(edges: seq<Link<T>>, w: seq<Link<T>>) {
    w != [] && Walk(edges, w) && w[0].from == w[|w| - 1].to
  }

  ghost predicate Acyclic<T(!new)>(edges: seq<Link<T>>) {
    forall w :: !Cycle(edges, w)
  }

  /** A walk that leaves `e.from` on the way round has also entered it. */
  lemma CycleEnters<T(!new)>(edges: seq<Link<T>>, w: seq<Link<T>>, e: Link<T>)
    requires Cycle(edges, w) && e in w
    ensures exists d :: d in w && d.to == e.from
  {
    var i :| 0 <= i < |w| && w[i] == e;
    var d := if i == 0 then w[|w| - 1] else w[i - 1];
    assert d in w;
  }

  /** The copy has the reachability of the original where everything on the way is named. */
  lemma {:induction false} RelinkReaches<A(!new), B(!new)>(edges: seq<Link<A>>, at: map<A, B>, w: seq<Link<A>>, a: A, b: A)
    requires WalkFrom(edges, w, a, b) && a in at
    requires forall e :: e in edges ==> e.from in at && e.to in at
    ensures b in at && Reach(Relink(edges, at), at[a], at[b])
    decreases |w|
  {
    if w == [] {
      assert WalkFrom(Relink(edges, at), [], at[a], at[b]);
    } else {
      var n := |w| - 1;
      var e := w[n];
      RelinkReaches(edges, at, w[..n], a, e.from);
      RelinkImage(edges, at, e);
      var v :| WalkFrom(Relink(edges, at), v, at[a], at[e.from]);
      assert WalkFrom(Relink(edges, at), v + [Link(at[e.from], at[e.to], e.fromHandle, e.toHandle)], at[a], at[b]);
    }
  }

  /** A walk in the copy is the image of a walk in the original, connection by connection. */
  lemma {:induction false} RelinkLifts<A(!new), B(!new)>(edges: seq<Link<A>>, at: map<A, B>, v: seq<Link<B>>)
    returns (w: seq<Link<A>>)
    requires Walk(Relink(edges, at), v)
    requires forall a, b :: a in at && b in at && at[a] == at[b] ==> a == b
    ensures Walk(edges, w) && |w| == |v|
    ensures forall i :: 0 <= i < |w| ==>
              w[i].from in at && w[i].to in at
              && v[i] == Link(at[w[i].from], at[w[i].to], w[i].fromHandle, w[i].toHandle)
    decreases |v|
  {
    if v == [] {
      w := [];
    } else {
      var n := |v| - 1;
      var before := RelinkLifts(edges, at, v[..n]);
      RelinkOrigin(edges, at, v[n]);
      var d :| d in edges && d.from in at && d.to in at
               && v[n] == Link(at[d.from], at[d.to], d.fromHandle, d.toHandle);
      w := before + [d];
    }
  }

  // ---------------------------------------------------------------- growing a graph

  /** Edge `k` brings in node `k + 1`, from a node that is already there. */
  ghost predicate Grown<T(!new)>(order: seq<T>, edges: seq<Link<T>>) {
    && |order| == |edges| + 1
    && Distinct(order)
    && forall k :: 0 <= k < |edges| ==> edges[k].to == order[k + 1] && edges[k].from in order[..k + 1]
  }

  function Plain<T>(from: T, to: T): Link<T> {
    Link(from, to, Output, Input)
  }

  /** Everything grown is reachable from the root, whatever other connections there are. */
  lemma {:induction false} GrownReaches<T(!new)>(order: seq<T>, edges: seq<Link<T>>, all: seq<Link<T>>, k: nat)
    requires Grown(order, edges) && k < |order| && forall e :: e in edges ==> e in all
    ensures Reach(all, order[0], order[k])
    decreases k
  {
    if k == 0 {
      assert WalkFrom(all, [], order[0], order[0]);
    } else {
      var e := edges[k - 1];
      var j :| 0 <= j < k && order[..k][j] == e.from;
      GrownReaches(order, edges, all, j);
      var w :| WalkFrom(all, w, order[0], order[j]);
      assert WalkFrom(all, w + [e], order[0], order[k]);
    }
  }

  /** Along a walk of growth edges, nodes get younger. */
  lemma {:induction false} GrownAdvances<T(!new)>(order: seq<T>, edges: seq<Link<T>>, w: seq<Link<T>>)
    returns (i: nat, j: nat)
    requires Grown(order, edges) && Walk(edges, w) && w != []
    ensures i < j < |order| && order[i] == w[0].from && order[j] == w[|w| - 1].to
    decreases |w|
  {
    var n := |w| - 1;
    var k :| 0 <= k < |edges| && edges[k] == w[n];
    j := k + 1;
    var m :| 0 <= m <= k && order[..k + 1][m] == w[n].from;
    if n == 0 {
      i := m;
    } else {
      var i', j' := GrownAdvances(order, edges, w[..n]);
      assert order[j'] == order[m];
      i := i';
    }
  }

  lemma GrownIsAcyclic<T(!new)>(order: seq<T>, edges: seq<Link<T>>)
    requires Grown(order, edges)
    ensures Acyclic(edges)
  {
    forall w ensures !Cycle(edges, w) {
      if Cycle(edges, w) {
        var i, j := GrownAdvances(order, edges, w);
      }
    }
  }

  /** With further connections, every cycle uses one of them. */
  lemma CycleUsesExtra<T(!new)>(order: seq<T>, edges: seq<Link<T>>, all: seq<Link<T>>, w: seq<Link<T>>)
    requires Grown(order, edges) && Cycle(all, w)
    ensures exists e :: e in w && e !in edges
  {
    if forall e :: e in w ==> e in edges {
      assert Cycle(edges, w);
      GrownIsAcyclic(order, edges);
    }
  }

  lemma GrownEnds<T(!new)>(order: seq<T>, edges: seq<Link<T>>)
    requires Grown(order, edges)
    ensures forall e :: e in edges ==> e.from in order && e.to in order
  {
    forall e | e in edges ensures e.from in order && e.to in order {
      var k :| 0 <= k < |edges| && edges[k] == e;
      assert forall x :: x in order[..k + 1] ==> x in order;
    }
  }

  /** `next` is entered only from `node`. */
  ghost predicate OnlyFrom<T(!new)>(all: seq<Link<T>>, node: T, next: T) {
    forall e :: e in all && e.to == next ==> e.from == node
  }

  /** Nodes in a row, each entered only from the one before: a walk from outside that ends at the last
      has just gone through all of them, in order. */
  lemma {:induction false} RowDominates<T(!new)>(all: seq<Link<T>>, row: seq<T>, w: seq<Link<T>>)
    requires row != [] && w != [] && Walk(all, w) && w[0].from !in row && w[|w| - 1].to == row[|row| - 1]
    requires forall i :: 0 < i < |row| ==> OnlyFrom(all, row[i - 1], row[i])
    ensures |row| <= |w| && forall i :: 0 <= i < |row| ==> w[|w| - |row| + i].to == row[i]
    decreases |row|
  {
    var n, m := |row| - 1, |w| - 1;
    if n > 0 {
      assert w[m] in all && OnlyFrom(all, row[n - 1], row[n]);
      assert m > 0;
      RowDominates(all, row[..n], w[..m]);
    }
  }
}
