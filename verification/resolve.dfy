/**
 * Route resolution (`v2/route.go`): `findRouteRecursive`, which searches the whole tree for the
 * deepest chain of aliases matching the leading tokens, and the older first-match `findRoute`.
 */
module Resolver {
  import opened Options
  import opened Routes

  /** A resolved route (nil when nothing matched) and the number of tokens its aliases consumed. */
  datatype Found = Found(route: Option<Route>, depth: int)

  /** The search reads `args[depth - 1]` only in calls that satisfy this. */
  predicate Indexable(route: Route, args: seq<string>, depth: int) {
    depth <= 0 || |args| == 0 || IsDefault(route) || depth <= |args|
  }

  /**
   * `node` has alias `args[i - 1]`, and a path of children with aliases `args[i] … args[d - 1]`
   * leads from it down to `target`: the tokens `args[i - 1 .. d]` name `target` below `node`.
   */
  predicate Chain(node: Route, args: seq<string>, i: int, d: int, target: Route)
    decreases node
  {
    && 1 <= i <= d <= |args|
    && HasAlias(node, args[i - 1])
    && if i == d then node == target
       else exists j :: 0 <= j < |node.subroutes| && Chain(node.subroutes[j], args, i + 1, d, target)
  }

  /**
   * `findRouteRecursive` on a non-nil route. A miss reports `depth - 1`; a default route is taken
   * as it is; an aliased route matching `args[depth - 1]` is kept unless a child chain goes deeper.
   */
  function Search(route: Route, args: seq<string>, depth: int): (r: Found)
    requires Indexable(route, args, depth)
    ensures r.route.None? ==> r.depth == if depth <= 0 then 0 else depth - 1
    ensures r.route.Some? ==> depth >= 1 && |args| > 0
    ensures r.route.Some? && IsDefault(route) ==> r == Found(Some(route), depth - 1)
    ensures r.route.Some? && !IsDefault(route) ==> depth <= r.depth <= |args|
    ensures depth >= 1 && |args| > 0 && !IsDefault(route) ==> (r.route.Some? <==> HasAlias(route, args[depth - 1]))
    decreases route, 1
  {
    if depth <= 0 then Found(None, 0)
    else if |args| == 0 then Found(None, depth - 1)
    else if IsDefault(route) then Found(Some(route), depth - 1)
    else if !HasAlias(route, args[depth - 1]) then Found(None, depth - 1)
    else if depth < |args| then
      Best(route, FindAllSubroutes(route, args[depth]), args, depth, Found(Some(route), depth))
    else Found(Some(route), depth)
  }

  /**
   * The loop over `FindAllSubroutes`: each candidate's search result replaces the best so far
   * when it is at least as deep (`finalDepth <= newDepth`), so later siblings win ties.
   */
  function Best(parent: Route, cands: seq<Route>, args: seq<string>, depth: int, acc: Found): (r: Found)
    requires 1 <= depth < |args|
    requires forall i :: 0 <= i < |cands| ==> cands[i] in parent.subroutes && HasAlias(cands[i], args[depth])
    requires acc.route.Some? && depth <= acc.depth <= |args|
    ensures r.route.Some? && acc.depth <= r.depth <= |args|
    decreases parent, 0, |cands|
  {
    if |cands| == 0 then acc
    else
      assert cands[0] in parent.subroutes;
      var n := Search(cands[0], args, depth + 1);
      Best(parent, cands[1..], args, depth, if acc.depth <= n.depth && n.route.Some? then n else acc)
  }

  /** `findRouteRecursive(route, args, depth)`; the router calls it with depth 1. */
  function FindRouteRecursive(route: Option<Route>, args: seq<string>, depth: int): (r: Found)
    requires route.Some? ==> Indexable(route.value, args, depth)
    ensures r.route.None? ==> r.depth == if depth <= 0 then 0 else depth - 1
    ensures route.None? ==> r.route.None?
    ensures depth == 1 ==> 0 <= r.depth <= |args|
  {
    if depth <= 0 then Found(None, 0)
    else if |args| == 0 || route.None? then Found(None, depth - 1)
    else Search(route.value, args, depth)
  }

  /** A chain ends on a route whose alias is the last consumed token. */
  lemma {:induction false} ChainEnd(node: Route, args: seq<string>, i: int, d: int, target: Route)
    requires Chain(node, args, i, d, target)
    ensures HasAlias(target, args[d - 1]) && !IsDefault(target)
    decreases node
  {
    if i < d {
      var j :| 0 <= j < |node.subroutes| && Chain(node.subroutes[j], args, i + 1, d, target);
      ChainEnd(node.subroutes[j], args, i + 1, d, target);
    }
  }

  /** Soundness: the route found below an aliased route is reached by a chain matching the consumed tokens. */
  lemma {:induction false} SearchSound(route: Route, args: seq<string>, depth: int)
    requires depth >= 1 && Indexable(route, args, depth)
    ensures var r := Search(route, args, depth);
      r.route.Some? && !IsDefault(route) ==> Chain(route, args, depth, r.depth, r.route.value)
    decreases route, 1
  {
    if |args| > 0 && !IsDefault(route) && HasAlias(route, args[depth - 1]) && depth < |args| {
      BestSound(route, FindAllSubroutes(route, args[depth]), args, depth, Found(Some(route), depth));
    }
  }

  lemma {:induction false} BestSound(parent: Route, cands: seq<Route>, args: seq<string>, depth: int, acc: Found)
    requires 1 <= depth < |args|
    requires forall i :: 0 <= i < |cands| ==> cands[i] in parent.subroutes && HasAlias(cands[i], args[depth])
    requires acc.route.Some? && depth <= acc.depth <= |args|
    requires Chain(parent, args, depth, acc.depth, acc.route.value)
    ensures var r := Best(parent, cands, args, depth, acc); Chain(parent, args, depth, r.depth, r.route.value)
    decreases parent, 0, |cands|
  {
    if |cands| > 0 {
      var c := cands[0];
      var n := Search(c, args, depth + 1);
      var acc' := if acc.depth <= n.depth && n.route.Some? then n else acc;
      if acc' == n {
        SearchSound(c, args, depth + 1);
        var j :| 0 <= j < |parent.subroutes| && parent.subroutes[j] == c;
        assert Chain(parent.subroutes[j], args, depth + 1, n.depth, n.route.value);
      }
      BestSound(parent, cands[1..], args, depth, acc');
    }
  }

  /** Every candidate's own result is at most as deep as what `Best` returns. */
  lemma {:induction false} BestCovers(parent: Route, cands: seq<Route>, args: seq<string>, depth: int, acc: Found, k: int)
    requires 1 <= depth < |args|
    requires forall i :: 0 <= i < |cands| ==> cands[i] in parent.subroutes && HasAlias(cands[i], args[depth])
    requires acc.route.Some? && depth <= acc.depth <= |args|
    requires 0 <= k < |cands|
    ensures Search(cands[k], args, depth + 1).depth <= Best(parent, cands, args, depth, acc).depth
    decreases |cands|
  {
    var n := Search(cands[0], args, depth + 1);
    var acc' := if acc.depth <= n.depth && n.route.Some? then n else acc;
    if k > 0 {
      assert cands[1..][k - 1] == cands[k];
      BestCovers(parent, cands[1..], args, depth, acc', k - 1);
    }
  }

  /** Optimality: no chain of aliases from the route is deeper than the search result. */
  lemma {:induction false} SearchOptimal(route: Route, args: seq<string>, depth: int, d: int, t: Route)
    requires depth >= 1 && Indexable(route, args, depth)
    requires Chain(route, args, depth, d, t)
    ensures Search(route, args, depth).route.Some? && d <= Search(route, args, depth).depth
    decreases route
  {
    if depth < d {
      var j :| 0 <= j < |route.subroutes| && Chain(route.subroutes[j], args, depth + 1, d, t);
      var c := route.subroutes[j];
      SearchOptimal(c, args, depth + 1, d, t);
      var cands := FindAllSubroutes(route, args[depth]);
      assert c in cands;
      var k :| 0 <= k < |cands| && cands[k] == c;
      BestCovers(route, cands, args, depth, Found(Some(route), depth), k);
    }
  }

  /** The depth a candidate's own search reaches. */
  function CandDepth(cands: seq<Route>, j: int, args: seq<string>, depth: int): int
    requires 1 <= depth < |args| && 0 <= j < |cands|
    requires forall i :: 0 <= i < |cands| ==> HasAlias(cands[i], args[depth])
  {
    Search(cands[j], args, depth + 1).depth
  }

  /** When no candidate reaches the incoming best depth, the incoming best is kept. */
  lemma {:induction false} BestKeeps(parent: Route, cands: seq<Route>, args: seq<string>, depth: int, acc: Found)
    requires 1 <= depth < |args|
    requires forall i :: 0 <= i < |cands| ==> cands[i] in parent.subroutes && HasAlias(cands[i], args[depth])
    requires acc.route.Some? && depth <= acc.depth <= |args|
    requires forall j :: 0 <= j < |cands| ==> CandDepth(cands, j, args, depth) < acc.depth
    ensures Best(parent, cands, args, depth, acc) == acc
    decreases |cands|
  {
    if |cands| > 0 {
      assert CandDepth(cands, 0, args, depth) < acc.depth;
      forall j | 0 <= j < |cands| - 1 ensures CandDepth(cands[1..], j, args, depth) < acc.depth {
        assert cands[1..][j] == cands[j + 1];
        assert CandDepth(cands, j + 1, args, depth) < acc.depth;
      }
      BestKeeps(parent, cands[1..], args, depth, acc);
    }
  }

  /** Candidate `i`'s search result is `r`, and every later candidate reaches a depth below it. */
  predicate LastDeepestAt(cands: seq<Route>, args: seq<string>, depth: int, r: Found, i: int)
    requires 1 <= depth < |args|
    requires forall i :: 0 <= i < |cands| ==> HasAlias(cands[i], args[depth])
  {
    && 0 <= i < |cands| && r == Search(cands[i], args, depth + 1)
    && forall j :: i < j < |cands| ==> CandDepth(cands, j, args, depth) < r.depth
  }

  /**
   * The tie-break: when some candidate reaches the incoming best depth, the result is the search
   * result of a candidate that no later candidate matches in depth. With `BestCovers`, the winner
   * is the LAST candidate of greatest depth.
   */
  lemma {:induction false} BestLastDeepest(parent: Route, cands: seq<Route>, args: seq<string>, depth: int, acc: Found, k: int)
    requires 1 <= depth < |args|
    requires forall i :: 0 <= i < |cands| ==> cands[i] in parent.subroutes && HasAlias(cands[i], args[depth])
    requires acc.route.Some? && depth <= acc.depth <= |args|
    requires 0 <= k < |cands| && CandDepth(cands, k, args, depth) >= acc.depth
    ensures exists i :: LastDeepestAt(cands, args, depth, Best(parent, cands, args, depth, acc), i)
    decreases |cands|
  {
    var n := Search(cands[0], args, depth + 1);
    var acc' := if acc.depth <= n.depth && n.route.Some? then n else acc;
    var rest := cands[1..];
    var r := Best(parent, cands, args, depth, acc);
    assert r == Best(parent, rest, args, depth, acc');
    CandDepthShift(parent, cands, args, depth);
    if k' :| 0 <= k' < |rest| && CandDepth(rest, k', args, depth) >= acc'.depth {
      BestLastDeepest(parent, rest, args, depth, acc', k');
      var i :| LastDeepestAt(rest, args, depth, r, i);
      assert r == Search(cands[i + 1], args, depth + 1);
      assert forall j :: i + 1 < j < |cands| ==> CandDepth(cands, j, args, depth) < r.depth by {
        forall j | i + 1 < j < |cands| ensures CandDepth(cands, j, args, depth) < r.depth {
          assert CandDepth(rest, j - 1, args, depth) < r.depth;
        }
      }
      assert LastDeepestAt(cands, args, depth, r, i + 1);
    } else {
      assert acc.depth <= n.depth by {
        if k > 0 {
          assert CandDepth(rest, k - 1, args, depth) >= acc.depth;
        }
      }
      assert forall j :: 0 < j < |cands| ==> CandDepth(cands, j, args, depth) < n.depth by {
        forall j | 0 < j < |cands| ensures CandDepth(cands, j, args, depth) < n.depth {
          assert CandDepth(rest, j - 1, args, depth) < acc'.depth;
        }
      }
      BestHeadWins(parent, cands, args, depth, acc);
      assert LastDeepestAt(cands, args, depth, r, 0);
    }
  }

  /** A first candidate at least as deep as the incoming best, and deeper than every later one, wins. */
  lemma BestHeadWins(parent: Route, cands: seq<Route>, args: seq<string>, depth: int, acc: Found)
    requires 1 <= depth < |args| && |cands| > 0
    requires forall i :: 0 <= i < |cands| ==> cands[i] in parent.subroutes && HasAlias(cands[i], args[depth])
    requires acc.route.Some? && depth <= acc.depth <= |args|
    requires acc.depth <= CandDepth(cands, 0, args, depth)
    requires forall j :: 0 < j < |cands| ==> CandDepth(cands, j, args, depth) < CandDepth(cands, 0, args, depth)
    ensures Best(parent, cands, args, depth, acc) == Search(cands[0], args, depth + 1)
  {
    var n := Search(cands[0], args, depth + 1);
    assert n.route.Some?;
    CandDepthShift(parent, cands, args, depth);
    assert forall j :: 0 <= j < |cands[1..]| ==> CandDepth(cands[1..], j, args, depth) < n.depth;
    BestKeeps(parent, cands[1..], args, depth, n);
  }

  /** Dropping the first candidate shifts every later candidate's depth down one index. */
  lemma CandDepthShift(parent: Route, cands: seq<Route>, args: seq<string>, depth: int)
    requires 1 <= depth < |args| && |cands| > 0
    requires forall i :: 0 <= i < |cands| ==> cands[i] in parent.subroutes && HasAlias(cands[i], args[depth])
    ensures forall i :: 0 <= i < |cands[1..]| ==> cands[1..][i] in parent.subroutes && HasAlias(cands[1..][i], args[depth])
    ensures forall j :: 0 < j < |cands| ==> CandDepth(cands[1..], j - 1, args, depth) == CandDepth(cands, j, args, depth)
    ensures forall j :: 0 <= j < |cands| - 1 ==> CandDepth(cands[1..], j, args, depth) == CandDepth(cands, j + 1, args, depth)
  {
  }

  /** The cases of the resolver as the router calls it, from depth 1, that decide without searching. */
  lemma RootShallow(root: Route, args: seq<string>)
    ensures var r := FindRouteRecursive(Some(root), args, 1);
      && 0 <= r.depth <= |args|
      && (|args| == 0 ==> r == Found(None, 0))
      && (|args| > 0 && IsDefault(root) ==> r == Found(Some(root), 0))
      && (|args| > 0 && !IsDefault(root) && !HasAlias(root, args[0]) ==> r == Found(None, 0))
      && (|args| > 0 && HasAlias(root, args[0]) ==> r.route.Some? && r.depth >= 1)
  {
  }

  /**
   * A route found by consuming tokens is reached from the root by a chain of aliases naming
   * exactly those tokens, the last of which is its own alias.
   */
  lemma RootSound(root: Route, args: seq<string>)
    ensures var r := FindRouteRecursive(Some(root), args, 1);
      r.route.Some? && r.depth >= 1 ==>
        Chain(root, args, 1, r.depth, r.route.value) && HasAlias(r.route.value, args[r.depth - 1])
  {
    var r := FindRouteRecursive(Some(root), args, 1);
    if |args| > 0 && !IsDefault(root) {
      SearchSound(root, args, 1);
      if r.route.Some? {
        ChainEnd(root, args, 1, r.depth, r.route.value);
      }
    }
  }

  /** The deepest match wins: no chain of aliases from the root consumes more tokens than the result. */
  lemma RootOptimal(root: Route, args: seq<string>, d: int, t: Route)
    requires Chain(root, args, 1, d, t)
    ensures d <= FindRouteRecursive(Some(root), args, 1).depth
  {
    SearchOptimal(root, args, 1, d, t);
  }

  /**
   * First-match descent from a route whose alias matched `args[depth - 1]`: follow the
   * earliest-registered child having the next token as alias while tokens remain.
   */
  function FirstMatch(route: Route, args: seq<string>, depth: int): (r: Found)
    requires 1 <= depth <= |args|
    ensures r.route.Some? && depth <= r.depth <= |args|
    decreases |args| - depth
  {
    if depth == |args| then Found(Some(route), depth)
    else
      match Find(route, args[depth])
      case None => Found(Some(route), depth)
      case Some(sub) => FirstMatch(sub, args, depth + 1)
  }

  /** What `findRoute` returns, stated through `FirstMatch`. */
  function FindRouteSpec(route: Option<Route>, args: seq<string>): Found {
    if |args| == 0 || route.None? then Found(None, 0)
    else if IsDefault(route.value) then Found(Some(route.value), 0)
    else if !HasAlias(route.value, args[0]) then Found(None, 0)
    else FirstMatch(route.value, args, 1)
  }

  /** `findRoute`: the older iterative resolver that commits to the first matching child at each level. */
  method FindRoute(route: Option<Route>, args: seq<string>) returns (found: Option<Route>, depth: int)
    ensures Found(found, depth) == FindRouteSpec(route, args)
    ensures 0 <= depth <= |args|
  {
    depth := 0;
    if |args| == 0 || route.None? {
      return None, depth;
    }
    var cur := route.value;
    if IsDefault(cur) {
      return Some(cur), depth;
    }
    if !HasAlias(cur, args[0]) {
      return None, depth;
    }
    depth := 1;
    while depth < |args|
      invariant 1 <= depth <= |args|
      invariant FirstMatch(cur, args, depth) == FirstMatch(route.value, args, 1)
      decreases |args| - depth
    {
      var sub := Find(cur, args[depth]);
      if sub.None? {
        return Some(cur), depth;
      }
      cur := sub.value;
      depth := depth + 1;
    }
    return Some(cur), depth;
  }

  /** A first-match descent is a chain of aliases over the tokens it consumes. */
  lemma {:induction false} FirstMatchChain(route: Route, args: seq<string>, depth: int)
    requires 1 <= depth <= |args| && HasAlias(route, args[depth - 1])
    ensures var r := FirstMatch(route, args, depth); Chain(route, args, depth, r.depth, r.route.value)
    decreases |args| - depth
  {
    if depth < |args| {
      var sub := Find(route, args[depth]);
      if sub.Some? {
        FirstMatchChain(sub.value, args, depth + 1);
        var j :| 0 <= j < |route.subroutes| && route.subroutes[j] == sub.value;
        assert Chain(route.subroutes[j], args, depth + 1, FirstMatch(route, args, depth).depth, FirstMatch(route, args, depth).route.value);
      }
    }
  }

  /**
   * The two resolvers agree on when nothing matches, and the first-match variant never
   * consumes more tokens than the whole-tree search.
   */
  lemma FirstMatchNoDeeper(route: Route, args: seq<string>)
    ensures FindRouteSpec(Some(route), args).route.None? <==> FindRouteRecursive(Some(route), args, 1).route.None?
    ensures FindRouteSpec(Some(route), args).depth <= FindRouteRecursive(Some(route), args, 1).depth
  {
    RootShallow(route, args);
    if |args| > 0 && !IsDefault(route) && HasAlias(route, args[0]) {
      FirstMatchChain(route, args, 1);
      var r := FirstMatch(route, args, 1);
      RootOptimal(route, args, r.depth, r.route.value);
    }
  }
}
