/**
  Searching the graph that exceptions span through their cause and context
  links (bot_utils/network_retry.py).  The graph may share nodes, be cyclic and
  be arbitrarily large; only a complete search of a small one may allow a retry.
 */
module ExceptionGraph {
  import opened Wrappers

  type Node = nat

  /**
    `links` are the cause and the context, where present; `explicit` says that
    type and text of the exception are, by themselves, a clean rate-limit
    rejection.
   */
  datatype Graph = Graph(links: Node -> seq<Node>, explicit: Node -> bool)

  const LIMIT := 16

  predicate Path(g: Graph, p: seq<Node>) {
    p != [] && forall i :: 0 <= i && i + 1 < |p| ==> p[i + 1] in g.links(p[i])
  }

  predicate Leads(g: Graph, p: seq<Node>, a: Node, b: Node) {
    Path(g, p) && p[0] == a && p[|p| - 1] == b
  }

  ghost predicate Reaches(g: Graph, a: Node, b: Node) {
    exists p :: Leads(g, p, a, b)
  }

  /** Some reachable exception is linked back to itself. */
  ghost predicate Cyclic(g: Graph, root: Node) {
    exists n: Node, p :: Reaches(g, root, n) && Leads(g, p, n, n) && |p| > 1
  }

  ghost predicate AllReachable(g: Graph, root: Node, s: set<Node>) {
    forall n :: n in s ==> Reaches(g, root, n)
  }

  ghost predicate Within(g: Graph, root: Node, s: set<Node>) {
    forall n: Node :: Reaches(g, root, n) ==> n in s
  }

  /** No more exceptions are reachable than are looked at. */
  ghost predicate Small(g: Graph, root: Node) {
    exists s: set<Node> :: |s| <= LIMIT && Within(g, root, s)
  }

  ghost predicate AllExplicit(g: Graph, root: Node) {
    forall n: Node :: Reaches(g, root, n) ==> g.explicit(n)
  }

  // ---------------------------------------------------------------- paths

  lemma ReachesItself(g: Graph, a: Node)
    ensures Reaches(g, a, a)
  {
    assert Leads(g, [a], a, a);
  }

  lemma Extend(g: Graph, p: seq<Node>, a: Node, b: Node, c: Node)
    requires Leads(g, p, a, b) && c in g.links(b)
    ensures Leads(g, p + [c], a, c)
  {
  }

  lemma ReachesNext(g: Graph, a: Node, b: Node, c: Node)
    requires Reaches(g, a, b) && c in g.links(b)
    ensures Reaches(g, a, c)
  {
    var p :| Leads(g, p, a, b);
    Extend(g, p, a, b, c);
  }

  /** A set that contains the root and the links of its members contains everything reachable. */
  lemma {:induction false} ClosedContainsPath(g: Graph, s: set<Node>, p: seq<Node>, a: Node, b: Node)
    requires a in s && Leads(g, p, a, b)
    requires forall n, m :: n in s && m in g.links(n) ==> m in s
    ensures b in s
    decreases |p|
  {
    if |p| > 1 {
      var q := p[..|p| - 1];
      ClosedContainsPath(g, s, q, a, q[|q| - 1]);
      assert p[|q| - 1 + 1] in g.links(p[|q| - 1]);
    }
  }

  lemma ClosedIsWithin(g: Graph, root: Node, s: set<Node>)
    requires root in s
    requires forall n, m :: n in s && m in g.links(n) ==> m in s
    ensures Within(g, root, s)
  {
    forall n: Node | Reaches(g, root, n) ensures n in s {
      var p :| Leads(g, p, root, n);
      ClosedContainsPath(g, s, p, root, n);
    }
  }

  lemma SubsetIsSmaller(a: set<Node>, b: set<Node>)
    requires a <= b
    ensures |a| <= |b|
  {
    assert b == a + (b - a);
  }

  lemma TooManyIsNotSmall(g: Graph, root: Node, s: set<Node>)
    requires |s| > LIMIT && AllReachable(g, root, s)
    ensures !Small(g, root)
  {
    if Small(g, root) {
      var t: set<Node> :| |t| <= LIMIT && Within(g, root, t);
      assert s <= t;
      SubsetIsSmaller(s, t);
    }
  }

  // -------------------------------------------------- the iterative search

  ghost predicate Distinct(s: seq<Node>) {
    forall i, j :: 0 <= i < j < |s| ==> s[i] != s[j]
  }

  /** `_network_exception_chain`: exactly the reachable exceptions, or None when there are more than the limit. */
  method NetworkExceptionChain(g: Graph, exc: Node) returns (chain: Option<seq<Node>>)
    ensures chain.Some? <==> Small(g, exc)
    ensures chain.Some? ==> |chain.value| <= LIMIT && Distinct(chain.value)
    ensures chain.Some? ==> forall n: Node :: n in chain.value <==> Reaches(g, exc, n)
  {
    var pending, seen, result := [exc], {}, [];
    ReachesItself(g, exc);
    while pending != []
      invariant |seen| == |result| <= LIMIT && Distinct(result)
      invariant forall n :: n in result <==> n in seen
      invariant AllReachable(g, exc, seen)
      invariant forall n :: n in pending ==> Reaches(g, exc, n)
      invariant exc in seen || exc in pending
      invariant forall n, m :: n in seen && m in g.links(n) ==> m in seen || m in pending
      decreases LIMIT - |result|, |pending|
    {
      var current := pending[|pending| - 1];
      ghost var rest := pending[..|pending| - 1];
      assert pending == rest + [current];
      pending := pending[..|pending| - 1];
      if current in seen {
        continue;
      }
      if |result| >= LIMIT {
        assert AllReachable(g, exc, seen + {current});
        TooManyIsNotSmall(g, exc, seen + {current});
        return None;
      }
      seen, result := seen + {current}, result + [current];
      forall m | m in g.links(current) ensures Reaches(g, exc, m) {
        ReachesNext(g, exc, current, m);
      }
      pending := pending + g.links(current);
    }
    ClosedIsWithin(g, exc, seen);
    chain := Some(result);
  }

  // --------------------------------------------------- the rejection check

  /** Every exception in `order` comes after the exceptions it links to. */
  ghost predicate Ordered(g: Graph, order: seq<Node>) {
    forall i, m :: 0 <= i < |order| && m in g.links(order[i]) ==> m in order[..i]
  }

  /** A path within an ordered sequence only goes to earlier entries. */
  lemma {:induction false} PathGoesDown(g: Graph, order: seq<Node>, p: seq<Node>, i: nat)
    requires Ordered(g, order) && Distinct(order)
    requires Path(g, p) && i < |order| && p[0] == order[i]
    ensures exists j: nat :: j < |order| && order[j] == p[|p| - 1] && (if |p| == 1 then j == i else j < i)
    decreases |p|
  {
    if |p| > 1 {
      var q := p[..|p| - 1];
      assert forall k :: 0 <= k && k + 1 < |q| ==> q[k + 1] in g.links(q[k]);
      PathGoesDown(g, order, q, i);
      var k: nat :| k < |order| && order[k] == q[|q| - 1] && (if |q| == 1 then k == i else k < i);
      assert p[|q| - 1 + 1] in g.links(order[k]);
      var j: nat :| j < k && order[..k][j] == p[|p| - 1];
    }
  }

  lemma OrderedIsAcyclic(g: Graph, order: seq<Node>, p: seq<Node>, n: Node)
    requires Ordered(g, order) && Distinct(order) && n in order && Leads(g, p, n, n)
    ensures |p| == 1
  {
    var i: nat :| i < |order| && order[i] == n;
    PathGoesDown(g, order, p, i);
  }

  /** Evidence against a retry, found anywhere in what is reachable. */
  ghost predicate Rejected(g: Graph, root: Node) {
    Cyclic(g, root) || !Small(g, root) || !AllExplicit(g, root)
  }

  /** A search under way; `stack` is the chain of exceptions under visit, from the root down. */
  ghost predicate Fits(g: Graph, root: Node, seen: set<Node>, active: set<Node>, order: seq<Node>, stack: seq<Node>) {
    && (forall n :: n in active <==> n in stack)
    && (forall n :: n in seen <==> n in active || n in order)
    && (forall n :: n in order ==> n !in active && g.explicit(n))
    && Ordered(g, order) && Distinct(order) && Distinct(stack)
    && |seen| <= LIMIT
    && (stack != [] ==> Path(g, stack) && stack[0] == root)
    && AllReachable(g, root, seen)
  }

  lemma Push(g: Graph, root: Node, seen: set<Node>, active: set<Node>, order: seq<Node>, stack: seq<Node>, n: Node)
    requires Fits(g, root, seen, active, order, stack) && n !in seen && |seen| < LIMIT
    requires Leads(g, stack + [n], root, n)
    ensures Fits(g, root, seen + {n}, active + {n}, order, stack + [n])
  {
    assert Reaches(g, root, n);
  }

  lemma Pop(g: Graph, root: Node, seen: set<Node>, active: set<Node>, order: seq<Node>, stack: seq<Node>, n: Node)
    requires Fits(g, root, seen, active, order, stack + [n]) && g.explicit(n)
    requires forall m :: m in g.links(n) ==> m in order
    requires n !in stack && Distinct(stack) && (stack != [] ==> Path(g, stack) && stack[0] == root)
    ensures Fits(g, root, seen, active - {n}, order + [n], stack)
  {
    var longer := order + [n];
    forall i, m | 0 <= i < |longer| && m in g.links(longer[i]) ensures m in longer[..i] {
      assert longer[..i] == if i < |order| then order[..i] else order;
    }
  }

  /** One search: `seen` and `active` as in the source; `order` lists the finished exceptions. */
  class Search {
    const g: Graph
    const root: Node
    var seen: set<Node>
    var active: set<Node>
    ghost var order: seq<Node>

    constructor (g: Graph, root: Node)
      ensures this.g == g && this.root == root
      ensures seen == {} && active == {} && order == []
    {
      this.g, this.root := g, root;
      seen, active, order := {}, {}, [];
    }

    ghost predicate Valid(stack: seq<Node>)
      reads this
    {
      Fits(g, root, seen, active, order, stack)
    }

    method Visit(current: Node, ghost stack: seq<Node>) returns (ok: bool)
      requires Valid(stack)
      requires if stack == [] then current == root else current in g.links(stack[|stack| - 1])
      modifies this
      ensures !ok ==> Rejected(g, root)
      ensures ok ==> Valid(stack) && active == old(active)
      ensures ok ==> current in order && old(order) <= order && old(seen) <= seen
      decreases LIMIT - |seen|, 1
    {
      ghost var trail := stack + [current];
      assert Path(g, trail) && trail[0] == root;
      assert Leads(g, trail, root, current);
      if current in active {
        CycleFound(g, root, stack, current);
        return false;
      }
      if current in seen {
        return true;
      }
      if |seen| >= LIMIT {
        assert AllReachable(g, root, seen + {current});
        TooManyIsNotSmall(g, root, seen + {current});
        return false;
      }
      Push(g, root, seen, active, order, stack, current);
      seen, active := seen + {current}, active + {current};
      if !g.explicit(current) {
        return false;
      }
      ok := VisitLinks(current, stack);
      if ok {
        Pop(g, root, seen, active, order, stack, current);
        active := active - {current};
        order := order + [current];
      }
    }

    /** The loop over the links of an exception that has just become active. */
    method VisitLinks(current: Node, ghost stack: seq<Node>) returns (ok: bool)
      requires Valid(stack + [current]) && Path(g, stack + [current])
      modifies this
      ensures !ok ==> Rejected(g, root)
      ensures ok ==> Valid(stack + [current]) && active == old(active) && old(order) <= order && old(seen) <= seen
      ensures ok ==> forall m :: m in g.links(current) ==> m in order
      decreases LIMIT - |seen|, 2
    {
      var i := 0;
      while i < |g.links(current)|
        invariant 0 <= i <= |g.links(current)|
        invariant Valid(stack + [current]) && active == old(active) && old(order) <= order && old(seen) <= seen
        invariant forall k :: 0 <= k < i ==> g.links(current)[k] in order
      {
        SubsetIsSmaller(old(seen), seen);
        ok := Visit(g.links(current)[i], stack + [current]);
        if !ok {
          return false;
        }
        i := i + 1;
      }
      ok := true;
    }
  }

  lemma CycleFound(g: Graph, root: Node, stack: seq<Node>, current: Node)
    requires stack != [] && Path(g, stack) && stack[0] == root
    requires current in stack && current in g.links(stack[|stack| - 1])
    ensures Cyclic(g, root)
  {
    var i: nat :| i < |stack| && stack[i] == current;
    assert Leads(g, stack[..i + 1], root, current);
    var p := stack[i..] + [current];
    assert forall k :: 0 <= k && k + 1 < |p| ==> p[k + 1] in g.links(p[k]);
    assert Leads(g, p, current, current);
  }

  /**
    `is_unambiguous_rate_limit_rejection`: True exactly when the exceptions
    reachable from this one are few enough to inspect, form no cycle, and are
    each an explicit, clean rejection.
   */
  method IsUnambiguousRateLimitRejection(g: Graph, exc: Node) returns (ok: bool)
    ensures ok <==> Small(g, exc) && !Cyclic(g, exc) && AllExplicit(g, exc)
  {
    var search := new Search(g, exc);
    ok := search.Visit(exc, []);
    if ok {
      SearchedIsAccepted(g, exc, search.order, search.seen);
    }
  }

  lemma SearchedIsAccepted(g: Graph, root: Node, order: seq<Node>, seen: set<Node>)
    requires Ordered(g, order) && Distinct(order) && root in order
    requires |seen| <= LIMIT && (forall n :: n in order <==> n in seen) && forall n :: n in order ==> g.explicit(n)
    ensures Small(g, root) && !Cyclic(g, root) && AllExplicit(g, root)
  {
    ClosedIsWithin(g, root, seen);
    if Cyclic(g, root) {
      var n: Node, p :| Reaches(g, root, n) && Leads(g, p, n, n) && |p| > 1;
      OrderedIsAcyclic(g, order, p, n);
    }
  }
}
