/** Recorded resolutions of concrete route trees (the trees of `v2/route_test.go`), computed by the model. */
module ResolverExamples {
  import opened Options
  import opened Routes
  import opened Resolver
  import Text

  /** A route with a handler and no prefixer or middlewares. */
  function Node(id: nat, aliases: seq<string>, subs: seq<Route>): Route {
    Route(Some(id), None, aliases, subs, [])
  }

  /** Two `sub1` siblings tie at depth 2: the later-registered one is chosen. */
  lemma LaterSiblingWinsTie()
    ensures var tree := Node(0, ["root"], [Node(1, ["sub1"], [Node(3, ["subsub1"], [])]),
                                           Node(2, ["sub1"], [Node(4, ["subsub2"], [])])]);
      FindRouteRecursive(Some(tree), ["root", "sub1"], 1) == Found(Some(tree.subroutes[1]), 2)
  {
    var tree := Node(0, ["root"], [Node(1, ["sub1"], [Node(3, ["subsub1"], [])]),
                                   Node(2, ["sub1"], [Node(4, ["subsub2"], [])])]);
    assert HasAlias(tree, "root");
    assert FindAllSubroutes(tree, "sub1") == tree.subroutes;
  }

  /** The command of the merge test: three aliases, then three arguments. */
  function MergeArgs(): seq<string> {
    ["root", "sub1", "subsub2", "sub2", "arg1", "arg2"]
  }

  /** The first `sub1` sibling stops at depth 2: its only child is `subsub1`. */
  lemma MergeFirstSibling()
    ensures Search(Node(1, ["sub1"], [Node(3, ["subsub1"], [])]), MergeArgs(), 2) == Found(Some(Node(1, ["sub1"], [Node(3, ["subsub1"], [])])), 2)
  {
    var sa := Node(1, ["sub1"], [Node(3, ["subsub1"], [])]);
    assert HasAlias(sa, "sub1");
    assert Text.Lower("subsub1")[6] != Text.Lower("subsub2")[6];
    assert FindAllSubroutes(sa, "subsub2") == [];
  }

  /** The second `sub1` sibling reaches `subsub2` at depth 3. */
  lemma MergeSecondSibling()
    ensures Search(Node(2, ["sub1"], [Node(4, ["subsub2"], [])]), MergeArgs(), 2) == Found(Some(Node(4, ["subsub2"], [])), 3)
  {
    var ss2 := Node(4, ["subsub2"], []);
    var sb := Node(2, ["sub1"], [ss2]);
    assert Search(ss2, MergeArgs(), 3) == Found(Some(ss2), 3) by {
      assert HasAlias(ss2, "subsub2");
      assert FindAllSubroutes(ss2, "sub2") == [];
    }
    assert HasAlias(sb, "sub1");
    assert FindAllSubroutes(sb, "subsub2") == [ss2];
    assert Best(sb, [ss2], MergeArgs(), 2, Found(Some(sb), 2)) == Found(Some(ss2), 3);
  }

  /** Duplicate siblings merge their children: `subsub2` is found under the second `sub1`. */
  lemma DuplicateSiblingsMerge()
    ensures var tree := Node(0, ["root"], [Node(1, ["sub1"], [Node(3, ["subsub1"], [])]),
                                           Node(2, ["sub1"], [Node(4, ["subsub2"], [])])]);
      FindRouteRecursive(Some(tree), ["root", "sub1", "subsub2", "sub2", "arg1", "arg2"], 1)
        == Found(Some(tree.subroutes[1].subroutes[0]), 3)
  {
    var ss2 := Node(4, ["subsub2"], []);
    var sa, sb := Node(1, ["sub1"], [Node(3, ["subsub1"], [])]), Node(2, ["sub1"], [ss2]);
    var tree := Node(0, ["root"], [sa, sb]);
    var args := MergeArgs();
    MergeFirstSibling();
    MergeSecondSibling();
    assert HasAlias(tree, "root") && HasAlias(sa, "sub1") && HasAlias(sb, "sub1");
    assert FindAllSubroutes(tree, "sub1") == [sa, sb] by {
      assert [sa, sb][1..] == [sb] && [sb][1..] == [];
      assert AllIn([sb], "sub1") == [sb];
    }
    assert Best(tree, [sa, sb], args, 1, Found(Some(tree), 1)) == Found(Some(ss2), 3) by {
      assert Best(tree, [sa, sb], args, 1, Found(Some(tree), 1)) == Best(tree, [sb], args, 1, Found(Some(sa), 2));
    }
  }

  /** A deeper match through the earlier sibling beats a shallower one through the later sibling. */
  lemma DeeperEarlierSiblingWins()
    ensures var tree := Node(0, ["root"], [Node(1, ["sub1"], [Node(3, ["subsub1"], [Node(5, ["sub1"], [])])]),
                                           Node(2, ["sub1"], [Node(4, ["subsub1"], [])])]);
      FindRouteRecursive(Some(tree), ["root", "sub1", "subsub1", "sub1"], 1)
        == Found(Some(tree.subroutes[0].subroutes[0].subroutes[0]), 4)
  {
    var deep := Node(5, ["sub1"], []);
    var ssa, ssb := Node(3, ["subsub1"], [deep]), Node(4, ["subsub1"], []);
    var sa, sb := Node(1, ["sub1"], [ssa]), Node(2, ["sub1"], [ssb]);
    var tree := Node(0, ["root"], [sa, sb]);
    var args := ["root", "sub1", "subsub1", "sub1"];
    assert Search(sa, args, 2) == Found(Some(deep), 4) by {
      assert Search(ssa, args, 3) == Found(Some(deep), 4) by {
        assert HasAlias(ssa, "subsub1") && HasAlias(deep, "sub1");
        assert FindAllSubroutes(ssa, "sub1") == [deep];
        assert Search(deep, args, 4) == Found(Some(deep), 4);
        assert Best(ssa, [deep], args, 3, Found(Some(ssa), 3)) == Found(Some(deep), 4);
      }
      assert HasAlias(sa, "sub1") && HasAlias(ssa, "subsub1");
      assert FindAllSubroutes(sa, "subsub1") == [ssa];
      assert Best(sa, [ssa], args, 2, Found(Some(sa), 2)) == Found(Some(deep), 4);
    }
    assert Search(sb, args, 2) == Found(Some(ssb), 3) by {
      assert HasAlias(sb, "sub1") && HasAlias(ssb, "subsub1");
      assert FindAllSubroutes(ssb, "sub1") == [];
      assert Search(ssb, args, 3) == Found(Some(ssb), 3);
      assert FindAllSubroutes(sb, "subsub1") == [ssb];
      assert Best(sb, [ssb], args, 2, Found(Some(sb), 2)) == Found(Some(ssb), 3);
    }
    SiblingsOfRoot(tree, sa, sb, args);
  }

  /** With one token fewer, both branches reach depth 3 and the later one wins. */
  lemma NewestAtEqualDepth()
    ensures var tree := Node(0, ["root"], [Node(1, ["sub1"], [Node(3, ["subsub1"], [Node(5, ["sub1"], [])])]),
                                           Node(2, ["sub1"], [Node(4, ["subsub1"], [])])]);
      FindRouteRecursive(Some(tree), ["root", "sub1", "subsub1"], 1)
        == Found(Some(tree.subroutes[1].subroutes[0]), 3)
  {
    var deep := Node(5, ["sub1"], []);
    var ssa, ssb := Node(3, ["subsub1"], [deep]), Node(4, ["subsub1"], []);
    var sa, sb := Node(1, ["sub1"], [ssa]), Node(2, ["sub1"], [ssb]);
    var tree := Node(0, ["root"], [sa, sb]);
    var args := ["root", "sub1", "subsub1"];
    assert Search(sa, args, 2) == Found(Some(ssa), 3) by {
      assert HasAlias(sa, "sub1") && HasAlias(ssa, "subsub1");
      assert FindAllSubroutes(sa, "subsub1") == [ssa];
      assert Search(ssa, args, 3) == Found(Some(ssa), 3);
      assert Best(sa, [ssa], args, 2, Found(Some(sa), 2)) == Found(Some(ssa), 3);
    }
    assert Search(sb, args, 2) == Found(Some(ssb), 3) by {
      assert HasAlias(sb, "sub1") && HasAlias(ssb, "subsub1");
      assert FindAllSubroutes(sb, "subsub1") == [ssb];
      assert Search(ssb, args, 3) == Found(Some(ssb), 3);
      assert Best(sb, [ssb], args, 2, Found(Some(sb), 2)) == Found(Some(ssb), 3);
    }
    SiblingsOfRoot(tree, sa, sb, args);
  }

  /** Resolution under a root "root" with two "sub1" children: the later one wins unless the earlier goes deeper. */
  lemma SiblingsOfRoot(tree: Route, sa: Route, sb: Route, args: seq<string>)
    requires tree == Node(0, ["root"], [sa, sb]) && |args| >= 2 && args[0] == "root" && args[1] == "sub1"
    requires HasAlias(sa, "sub1") && HasAlias(sb, "sub1")
    ensures var ra, rb := Search(sa, args, 2), Search(sb, args, 2);
      FindRouteRecursive(Some(tree), args, 1) == if ra.depth > rb.depth then ra else rb
  {
    assert HasAlias(tree, "root");
    assert FindAllSubroutes(tree, "sub1") == [sa, sb] by {
      assert [sa, sb][1..] == [sb] && [sb][1..] == [];
      assert AllIn([sb], "sub1") == [sb];
    }
    var ra, rb := Search(sa, args, 2), Search(sb, args, 2);
    var acc := if 1 <= ra.depth && ra.route.Some? then ra else Found(Some(tree), 1);
    assert Best(tree, [sa, sb], args, 1, Found(Some(tree), 1)) == Best(tree, [sb], args, 1, acc);
    assert [sa, sb][1..] == [sb];
  }

  /** A default child is never descended into: resolution stops at its aliased parent. */
  lemma DefaultChildIgnored()
    ensures var tree := Node(1, ["root"], [Node(2, ["sub"], [Node(3, [], [])])]);
      FindRouteRecursive(Some(tree), ["root", "sub", "subsub"], 1) == Found(Some(tree.subroutes[0]), 2)
  {
    var tree := Node(1, ["root"], [Node(2, ["sub"], [Node(3, [], [])])]);
    assert HasAlias(tree, "root");
    assert FindAllSubroutes(tree, "sub") == tree.subroutes;
    assert FindAllSubroutes(tree.subroutes[0], "subsub") == [];
  }

  /** A default root takes every message at depth 0, whatever its children. */
  lemma DefaultRootTakesAll()
    ensures var tree := Node(1, [], [Node(2, ["sub"], [])]);
      FindRouteRecursive(Some(tree), ["sub", "sub", "hi", "there"], 1) == Found(Some(tree), 0)
  {
  }
}
