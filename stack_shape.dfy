/**
 * The shape of the graphs that `GetStackManager` and `GetKittingManager`
 * build: which action names end up in which child list, and which request
 * each action carries.
 *
 * Children are recorded by action NAME, so the shape depends on the names
 * being unambiguous.  They are when no colour is a prefix of another
 * (`PrefixFree`): then every plan node has a name of its own, and the child
 * list of every node is exactly the list of its plan children, in the order
 * the builder's loops add them.
 */
module StackShape {
  import opened Wrappers
  import opened PyStrings
  import opened StackManagement
  import opened StackPlan

  /** No colour is a prefix of another one (and so no colour occurs twice). */
  predicate PrefixFree(cs: seq<string>)
  {
    forall i, j :: 0 <= i < |cs| && 0 <= j < |cs| && i != j ==> !StartsWith(cs[j], cs[i])
  }

  predicate Distinct(cs: seq<string>)
  {
    forall i, j :: 0 <= i < |cs| && 0 <= j < |cs| && i != j ==> cs[i] != cs[j]
  }

  lemma PrefixFreeDistinct(cs: seq<string>)
    requires PrefixFree(cs)
    ensures Distinct(cs)
  {
    forall i, j | 0 <= i < |cs| && 0 <= j < |cs| && i != j
      ensures cs[i] != cs[j]
    {
      assert !StartsWith(cs[j], cs[i]);
    }
  }

  /** Every colour a node mentions is one of `cs`. */
  predicate Over(n: Node, cs: seq<string>)
  {
    match n
    case Grab1(c) => c in cs
    case Place2(c, c2) => c in cs && c2 in cs
    case Grab3(c, c2, c3) => c in cs && c2 in cs && c3 in cs
    case Place4(c, c2, c3) => c in cs && c2 in cs && c3 in cs
    case Home5(c, c2, c3) => c in cs && c2 in cs && c3 in cs
  }

  predicate AllOver(ns: seq<Node>, cs: seq<string>)
  {
    forall i :: 0 <= i < |ns| ==> Over(ns[i], cs)
  }

  predicate OptOver(q: Option<Node>, cs: seq<string>)
  {
    q.None? || Over(q.value, cs)
  }

  /**
   * A node of the stacking plan: its colours are listed, a block is never
   * placed on itself, and the third block differs from the first two.
   */
  predicate ValidNode(n: Node, colors: seq<string>)
  {
    match n
    case Grab1(c) => c in colors
    case Place2(c, c2) => c in colors && c2 in colors && c2 != c
    case Grab3(c, c2, c3) => ValidTriple(colors, c, c2, c3)
    case Place4(c, c2, c3) => ValidTriple(colors, c, c2, c3)
    case Home5(c, c2, c3) => ValidTriple(colors, c, c2, c3)
  }

  predicate ValidTriple(colors: seq<string>, c: string, c2: string, c3: string)
  {
    c in colors && c2 in colors && c3 in colors && c2 != c && c3 != c && c3 != c2
  }

  // ---------------------------------------------------------------------
  // Names are unambiguous over prefix-free colours.
  // ---------------------------------------------------------------------

  /** Two listed colours that start two equal strings are the same colour. */
  lemma CancelPrefix(cs: seq<string>, a: string, s: string, b: string, t: string)
    requires PrefixFree(cs) && a in cs && b in cs && a + s == b + t
    ensures a == b && s == t
  {
    var i :| 0 <= i < |cs| && cs[i] == a;
    var j :| 0 <= j < |cs| && cs[j] == b;
    if |a| <= |b| {
      assert (a + s)[..|a|] == a;
      assert (b + t)[..|a|] == b[..|a|];
      assert StartsWith(cs[j], cs[i]);
    } else {
      assert (a + s)[..|b|] == a[..|b|];
      assert (b + t)[..|b|] == b;
      assert StartsWith(cs[i], cs[j]);
    }
    assert a == b;
    assert s == (a + s)[|a|..];
    assert t == (b + t)[|b|..];
  }

  lemma CancelSuffix(x: string, y: string, t: string)
    requires x + t == y + t
    ensures x == y
  {
    assert |x| == |y|;
    assert x == (x + t)[..|x|];
    assert y == (y + t)[..|y|];
  }

  /** The level digit every action name starts with. */
  function LevelChar(n: Node): char
  {
    match n
    case Grab1(_) => '1'
    case Place2(_, _) => '2'
    case Grab3(_, _, _) => '3'
    case Place4(_, _, _) => '4'
    case Home5(_, _, _) => '5'
  }

  lemma Assoc<T>(a: seq<T>, b: seq<T>, c: seq<T>)
    ensures (a + b) + c == a + (b + c)
  {
  }

  /** The action name split as its level digit followed by the rest, read colour by colour. */
  function NameTail(n: Node): string
  {
    match n
    case Grab1(c) => ":grab_" + c
    case Place2(c, c2) => c2 + (":place_" + (c + ("_on_" + c2)))
    case Grab3(c, c2, c3) => c + (c2 + (":grab_" + c3))
    case Place4(c, c2, c3) => c + (c2 + (":place_" + (c3 + ("_on_" + (c2 + c)))))
    case Home5(c, c2, c3) => c + (c2 + (c3 + ":move_to_home"))
  }

  lemma NameSplit(n: Node)
    ensures NodeName(n) == [LevelChar(n)] + NameTail(n)
  {
    match n
    case Grab1(c) =>
      Assoc("1", ":grab_", c);
    case Place2(c, c2) =>
      Assoc("2" + c2 + ":place_" + c, "_on_", c2);
      Assoc("2" + c2 + ":place_", c, "_on_" + c2);
      Assoc("2" + c2, ":place_", c + ("_on_" + c2));
      Assoc("2", c2, ":place_" + (c + ("_on_" + c2)));
    case Grab3(c, c2, c3) =>
      Assoc("3" + c + c2, ":grab_", c3);
      Assoc("3" + c, c2, ":grab_" + c3);
      Assoc("3", c, c2 + (":grab_" + c3));
    case Place4(c, c2, c3) =>
      var t1 := c2 + c;
      var t2 := "_on_" + t1;
      var t3 := c3 + t2;
      var t4 := ":place_" + t3;
      var t5 := c2 + t4;
      Assoc("4" + c + c2 + ":place_" + c3 + "_on_", c2, c);
      Assoc("4" + c + c2 + ":place_" + c3, "_on_", t1);
      Assoc("4" + c + c2 + ":place_", c3, t2);
      Assoc("4" + c + c2, ":place_", t3);
      Assoc("4" + c, c2, t4);
      Assoc("4", c, t5);
    case Home5(c, c2, c3) =>
      Assoc("5" + c + c2, c3, ":move_to_home");
      Assoc("5" + c, c2, c3 + ":move_to_home");
      Assoc("5", c, c2 + (c3 + ":move_to_home"));
  }

  lemma InjGrab1(c: string, d: string)
    requires NameTail(Grab1(c)) == NameTail(Grab1(d))
    ensures c == d
  {
    assert NameTail(Grab1(c))[6..] == c;
    assert NameTail(Grab1(d))[6..] == d;
  }

  lemma InjPlace2(cs: seq<string>, c: string, c2: string, d: string, d2: string)
    requires PrefixFree(cs) && c2 in cs && d2 in cs
    requires NameTail(Place2(c, c2)) == NameTail(Place2(d, d2))
    ensures c == d && c2 == d2
  {
    var x := ":place_" + (c + ("_on_" + c2));
    var y := ":place_" + (d + ("_on_" + d2));
    CancelPrefix(cs, c2, x, d2, y);
    assert x[7..] == c + ("_on_" + c2);
    assert y[7..] == d + ("_on_" + c2);
    CancelSuffix(c, d, "_on_" + c2);
  }

  lemma InjGrab3(cs: seq<string>, c: string, c2: string, c3: string, d: string, d2: string, d3: string)
    requires PrefixFree(cs) && c in cs && c2 in cs && d in cs && d2 in cs
    requires NameTail(Grab3(c, c2, c3)) == NameTail(Grab3(d, d2, d3))
    ensures c == d && c2 == d2 && c3 == d3
  {
    var x := ":grab_" + c3;
    var y := ":grab_" + d3;
    CancelPrefix(cs, c, c2 + x, d, d2 + y);
    CancelPrefix(cs, c2, x, d2, y);
    assert x[6..] == c3 && y[6..] == d3;
  }

  lemma InjPlace4(cs: seq<string>, c: string, c2: string, c3: string, d: string, d2: string, d3: string)
    requires PrefixFree(cs) && c in cs && c2 in cs && d in cs && d2 in cs
    requires NameTail(Place4(c, c2, c3)) == NameTail(Place4(d, d2, d3))
    ensures c == d && c2 == d2 && c3 == d3
  {
    var t := "_on_" + (c2 + c);
    var x := ":place_" + (c3 + t);
    var y := ":place_" + (d3 + ("_on_" + (d2 + d)));
    CancelPrefix(cs, c, c2 + x, d, d2 + y);
    CancelPrefix(cs, c2, x, d2, y);
    assert x[7..] == c3 + t;
    assert y[7..] == d3 + t;
    CancelSuffix(c3, d3, t);
  }

  lemma InjHome5(cs: seq<string>, c: string, c2: string, c3: string, d: string, d2: string, d3: string)
    requires PrefixFree(cs) && c in cs && c2 in cs && d in cs && d2 in cs
    requires NameTail(Home5(c, c2, c3)) == NameTail(Home5(d, d2, d3))
    ensures c == d && c2 == d2 && c3 == d3
  {
    var x := c3 + ":move_to_home";
    var y := d3 + ":move_to_home";
    CancelPrefix(cs, c, c2 + x, d, d2 + y);
    CancelPrefix(cs, c2, x, d2, y);
    CancelSuffix(c3, d3, ":move_to_home");
  }

  /** Over prefix-free colours, different plan nodes have different action names. */
  lemma NameInjective(cs: seq<string>, a: Node, b: Node)
    requires PrefixFree(cs) && Over(a, cs) && Over(b, cs)
    ensures NodeName(a) == NodeName(b) <==> a == b
  {
    if NodeName(a) == NodeName(b) {
      NameSplit(a);
      NameSplit(b);
      assert LevelChar(a) == NodeName(a)[0] == LevelChar(b);
      assert NameTail(a) == NodeName(a)[1..] == NameTail(b);
      if a.Grab1? {
        InjGrab1(a.c, b.c);
      } else if a.Place2? {
        InjPlace2(cs, a.c, a.c2, b.c, b.c2);
      } else if a.Grab3? {
        InjGrab3(cs, a.c, a.c2, a.c3, b.c, b.c2, b.c3);
      } else if a.Place4? {
        InjPlace4(cs, a.c, a.c2, a.c3, b.c, b.c2, b.c3);
      } else {
        InjHome5(cs, a.c, a.c2, a.c3, b.c, b.c2, b.c3);
      }
    }
  }

  /**
   * Without prefix-freedom names can collide: with colours "re" and "dblue"
   * the level-3 grab of ("re", "dblue", c3) has the name of the level-3 grab
   * of ("red", "blue", c3).
   */
  lemma NamesCollideWithoutPrefixFreedom()
    ensures NodeName(Grab3("re", "dblue", "x")) == NodeName(Grab3("red", "blue", "x"))
    ensures Grab3("re", "dblue", "x") != Grab3("red", "blue", "x")
  {
  }

  /** The children-table key of a node, or the root key. */
  function KeyOf(q: Option<Node>): ParentKey
  {
    match q
    case None => None
    case Some(p) => Some(NodeName(p))
  }

  lemma KeyOfInjective(cs: seq<string>, p: Option<Node>, q: Option<Node>)
    requires PrefixFree(cs) && OptOver(p, cs) && OptOver(q, cs)
    ensures KeyOf(p) == KeyOf(q) <==> p == q
  {
    if p.Some? && q.Some? {
      NameInjective(cs, p.value, q.value);
    }
  }

  lemma ParentOver(n: Node, cs: seq<string>)
    requires Over(n, cs)
    ensures OptOver(NodeParent(n), cs)
    ensures ParentKeyOf(n) == KeyOf(NodeParent(n))
  {
  }

  // ---------------------------------------------------------------------
  // From the node list to the graph.
  // ---------------------------------------------------------------------

  /** The nodes of `ns` whose plan parent is `q`, in order. */
  function ChildrenIn(ns: seq<Node>, q: Option<Node>): seq<Node>
  {
    if ns == [] then []
    else ChildrenIn(ns[..|ns| - 1], q) + (if NodeParent(ns[|ns| - 1]) == q then [ns[|ns| - 1]] else [])
  }

  function Names(ns: seq<Node>): (r: seq<Name>)
    ensures |r| == |ns|
    ensures forall i :: 0 <= i < |ns| ==> r[i] == NodeName(ns[i])
  {
    if ns == [] then [] else Names(ns[..|ns| - 1]) + [NodeName(ns[|ns| - 1])]
  }

  lemma {:induction false} ChildrenInAppend(a: seq<Node>, b: seq<Node>, q: Option<Node>)
    ensures ChildrenIn(a + b, q) == ChildrenIn(a, q) + ChildrenIn(b, q)
    decreases |b|
  {
    if b == [] {
      assert a + b == a;
    } else {
      var init := b[..|b| - 1];
      ChildrenInAppend(a, init, q);
      assert (a + b)[..|a + b| - 1] == a + init;
      assert (a + b)[|a + b| - 1] == b[|b| - 1];
    }
  }

  lemma {:induction false} ChildrenInMember(ns: seq<Node>, q: Option<Node>, n: Node)
    ensures n in ChildrenIn(ns, q) <==> n in ns && NodeParent(n) == q
  {
    if ns != [] {
      var init := ns[..|ns| - 1];
      ChildrenInMember(init, q, n);
      assert ns == init + [ns[|ns| - 1]];
    }
  }

  /** One `addRequest` of a node appends its name to its parent's list and to no other. */
  lemma AddNodeChildren(cs: seq<string>, g: Graph<Service, Request>, n: Node, q: Option<Node>)
    requires PrefixFree(cs) && Over(n, cs) && OptOver(q, cs)
    ensures ChildrenOf(AddNodeTo(g, n).children, KeyOf(q))
            == ChildrenOf(g.children, KeyOf(q)) + (if NodeParent(n) == q then [NodeName(n)] else [])
  {
    AddRequestEffect(g, One(ParentKeyOf(n)), NodeName(n), NodeRequest(n).0, NodeRequest(n).1, KeyOf(q));
    ParentOver(n, cs);
    KeyOfInjective(cs, NodeParent(n), q);
    var k := multiset(ParentList(One(ParentKeyOf(n))))[KeyOf(q)];
    if NodeParent(n) == q {
      assert k == 1;
      assert Repeat(NodeName(n), 1) == [NodeName(n)];
    } else {
      assert k == 0;
    }
  }

  /**
   * Adding the nodes `ns` appends to the child list of `q` exactly the names
   * of the nodes of `ns` whose parent is `q`, in order.
   */
  lemma {:induction false} ApplyNodesChildren(cs: seq<string>, g: Graph<Service, Request>, ns: seq<Node>,
                                              q: Option<Node>)
    requires PrefixFree(cs) && AllOver(ns, cs) && OptOver(q, cs)
    ensures ChildrenOf(ApplyNodes(g, ns).children, KeyOf(q))
            == ChildrenOf(g.children, KeyOf(q)) + Names(ChildrenIn(ns, q))
  {
    if ns != [] {
      var init, n := ns[..|ns| - 1], ns[|ns| - 1];
      assert Over(n, cs);
      assert AllOver(init, cs) by {
        forall i | 0 <= i < |init| ensures Over(init[i], cs) {
          assert init[i] == ns[i];
        }
      }
      var g0 := ApplyNodes(g, init);
      var kids := ChildrenIn(init, q);
      var extra := if NodeParent(n) == q then [n] else [];
      assert ApplyNodes(g, ns) == AddNodeTo(g0, n);
      assert ChildrenIn(ns, q) == kids + extra;
      ApplyNodesChildren(cs, g, init, q);
      AddNodeChildren(cs, g0, n, q);
      NamesAppend(kids, extra);
      var base, before := ChildrenOf(g.children, KeyOf(q)), Names(kids);
      var added := Names(extra);
      assert added == if NodeParent(n) == q then [NodeName(n)] else [];
      assert ChildrenOf(ApplyNodes(g, ns).children, KeyOf(q)) == (base + before) + added;
      Assoc(base, before, added);
    }
  }

  lemma NamesAppend(a: seq<Node>, b: seq<Node>)
    requires |b| <= 1
    ensures Names(a + b) == Names(a) + Names(b)
  {
    if b != [] {
      assert (a + b)[..|a + b| - 1] == a;
    }
  }

  lemma InInit<T>(s: seq<T>, x: T)
    requires x in s && x != s[|s| - 1]
    ensures x in s[..|s| - 1]
  {
    var i :| 0 <= i < |s| && s[i] == x;
    assert s[..|s| - 1][i] == x;
  }

  /** A node added by the builder carries its own request in the table. */
  lemma {:induction false} ApplyNodesReqs(cs: seq<string>, g: Graph<Service, Request>, ns: seq<Node>, n: Node)
    requires PrefixFree(cs) && AllOver(ns, cs) && n in ns
    ensures NodeName(n) in ApplyNodes(g, ns).reqs
    ensures ApplyNodes(g, ns).reqs[NodeName(n)] == NodeRequest(n)
  {
    var init, m := ns[..|ns| - 1], ns[|ns| - 1];
    var g' := ApplyNodes(g, init);
    assert ApplyNodes(g, ns).reqs == g'.reqs[NodeName(m) := NodeRequest(m)];
    if m != n {
      InInit(ns, n);
      assert AllOver(init, cs) by {
        forall i | 0 <= i < |init| ensures Over(init[i], cs) {
          assert init[i] == ns[i];
        }
      }
      ApplyNodesReqs(cs, g, init, n);
      assert Over(m, cs) && Over(n, cs);
      NameInjective(cs, m, n);
    }
  }

  /** Looking a name up among nodes over prefix-free colours finds the node itself. */
  lemma {:induction false} NamesMember(cs: seq<string>, ns: seq<Node>, n: Node)
    requires PrefixFree(cs) && AllOver(ns, cs) && Over(n, cs)
    ensures NodeName(n) in Names(ns) <==> n in ns
  {
    if NodeName(n) in Names(ns) {
      var i :| 0 <= i < |ns| && Names(ns)[i] == NodeName(n);
      NameInjective(cs, ns[i], n);
    }
    if n in ns {
      var i :| 0 <= i < |ns| && ns[i] == n;
      assert Names(ns)[i] == NodeName(n);
    }
  }

  // ---------------------------------------------------------------------
  // The plan's children, level by level.
  // ---------------------------------------------------------------------

  /** The place nodes under the grab of `c`: one per other colour of `cs`, in order. */
  function Places(c: string, cs: seq<string>): seq<Node>
  {
    if cs == [] then []
    else Places(c, cs[..|cs| - 1]) + (if cs[|cs| - 1] == c then [] else [Place2(c, cs[|cs| - 1])])
  }

  /** The grab nodes under the place of `c` on `c2`: one per third colour of `cs`, in order. */
  function Grabs(c: string, c2: string, cs: seq<string>): seq<Node>
  {
    if cs == [] then []
    else
      var c3 := cs[|cs| - 1];
      Grabs(c, c2, cs[..|cs| - 1]) + (if c3 == c || c3 == c2 then [] else [Grab3(c, c2, c3)])
  }

  /**
   * The plan children of `q` when the outer loop runs over `firsts`: roots for
   * the colours of `firsts`, the other colours under each root, the remaining
   * colours under each place node, one place under each level-3 grab, one
   * home move under each level-4 place and nothing under a home move.
   */
  function PlanChildren(colors: seq<string>, firsts: seq<string>, q: Option<Node>): seq<Node>
  {
    match q
    case None => KittingNodes(firsts)
    case Some(Grab1(c)) => if c in firsts then Places(c, colors) else []
    case Some(Place2(c, c2)) => if c in firsts && c2 in colors && c2 != c then Grabs(c, c2, colors) else []
    case Some(Grab3(c, c2, c3)) =>
      if c in firsts && ValidTriple(colors, c, c2, c3) then [Place4(c, c2, c3)] else []
    case Some(Place4(c, c2, c3)) =>
      if c in firsts && ValidTriple(colors, c, c2, c3) then [Home5(c, c2, c3)] else []
    case Some(Home5(_, _, _)) => []
  }

  /** The plan children of `q` in the whole stacking plan. */
  function ExpectedChildren(colors: seq<string>, q: Option<Node>): seq<Node>
  {
    PlanChildren(colors, colors, q)
  }

  /** The children of `q` among the three actions of one top block. */
  lemma ChildrenInTopBlock(x: string, y: string, z: string, q: Option<Node>)
    ensures ChildrenIn(TopBlock(x, y, z), q)
            == if z == x || z == y then []
               else if q == Some(Place2(x, y)) then [Grab3(x, y, z)]
               else if q == Some(Grab3(x, y, z)) then [Place4(x, y, z)]
               else if q == Some(Place4(x, y, z)) then [Home5(x, y, z)]
               else []
  {
    if z != x && z != y {
      var g, p, h := Grab3(x, y, z), Place4(x, y, z), Home5(x, y, z);
      var t := TopBlock(x, y, z);
      assert t[..2] == [g, p] && t[..2][..1] == [g] && [g][..0] == [];
      var r1 := if NodeParent(g) == q then [g] else [];
      var r2 := if NodeParent(p) == q then [p] else [];
      var r3 := if NodeParent(h) == q then [h] else [];
      assert ChildrenIn([g], q) == r1;
      assert ChildrenIn([g, p], q) == r1 + r2;
      assert ChildrenIn(t, q) == r1 + r2 + r3;
    }
  }

  /** The children of `q` among the top blocks of `x` on `y` for the third colours `cs`. */
  function TopKids(x: string, y: string, cs: seq<string>, q: Option<Node>): seq<Node>
  {
    match q
    case Some(Place2(c, c2)) => if c == x && c2 == y then Grabs(x, y, cs) else []
    case Some(Grab3(c, c2, c3)) =>
      if c == x && c2 == y && c3 in cs && c3 != x && c3 != y then [Place4(x, y, c3)] else []
    case Some(Place4(c, c2, c3)) =>
      if c == x && c2 == y && c3 in cs && c3 != x && c3 != y then [Home5(x, y, c3)] else []
    case _ => []
  }

  lemma TopKidsStep(x: string, y: string, init: seq<string>, z: string, q: Option<Node>)
    requires z !in init
    ensures TopKids(x, y, init + [z], q) == TopKids(x, y, init, q) + ChildrenIn(TopBlock(x, y, z), q)
  {
    ChildrenInTopBlock(x, y, z, q);
    match q
    case Some(Place2(c, c2)) => TopKidsStepPlace(x, y, init, z, c, c2);
    case Some(Grab3(_, _, c3)) => TopKidsStepLevel(x, y, init, z, c3, q);
    case Some(Place4(_, _, c3)) => TopKidsStepLevel(x, y, init, z, c3, q);
    case _ =>
  }

  lemma TopKidsStepPlace(x: string, y: string, init: seq<string>, z: string, c: string, c2: string)
    requires z !in init
    ensures TopKids(x, y, init + [z], Some(Place2(c, c2)))
            == TopKids(x, y, init, Some(Place2(c, c2))) + ChildrenIn(TopBlock(x, y, z), Some(Place2(c, c2)))
  {
    var cs := init + [z];
    assert cs[..|cs| - 1] == init;
    ChildrenInTopBlock(x, y, z, Some(Place2(c, c2)));
  }

  /** The step for a parent at level 3 or 4 whose third colour is `c3`. */
  lemma TopKidsStepLevel(x: string, y: string, init: seq<string>, z: string, c3: string, q: Option<Node>)
    requires z !in init
    requires q.Some? && (q.value.Grab3? || q.value.Place4?) && q.value.c3 == c3
    ensures TopKids(x, y, init + [z], q) == TopKids(x, y, init, q) + ChildrenIn(TopBlock(x, y, z), q)
  {
    var cs := init + [z];
    assert c3 in cs <==> c3 in init || c3 == z;
    ChildrenInTopBlock(x, y, z, q);
    if c3 == z {
      assert TopKids(x, y, init, q) == [];
    } else {
      assert ChildrenIn(TopBlock(x, y, z), q) == [];
    }
  }

  lemma {:induction false} ChildrenInTopBlocks(x: string, y: string, cs: seq<string>, q: Option<Node>)
    requires Distinct(cs)
    ensures ChildrenIn(TopBlocks(x, y, cs), q) == TopKids(x, y, cs, q)
  {
    if cs != [] {
      var init, z := cs[..|cs| - 1], cs[|cs| - 1];
      assert Distinct(init);
      assert cs == init + [z];
      assert z !in init;
      ChildrenInTopBlocks(x, y, init, q);
      ChildrenInAppend(TopBlocks(x, y, init), TopBlock(x, y, z), q);
      TopKidsStep(x, y, init, z, q);
    }
  }

  /** The children of `q` among the place blocks of `x` for the second colours `cs`. */
  function PlaceKids(colors: seq<string>, x: string, cs: seq<string>, q: Option<Node>): seq<Node>
  {
    match q
    case Some(Grab1(c)) => if c == x then Places(x, cs) else []
    case Some(Place2(c, c2)) => if c == x && c2 in cs && c2 != x then Grabs(x, c2, colors) else []
    case Some(Grab3(c, c2, c3)) =>
      if c == x && c2 in cs && c2 != x && c3 in colors && c3 != x && c3 != c2 then [Place4(x, c2, c3)] else []
    case Some(Place4(c, c2, c3)) =>
      if c == x && c2 in cs && c2 != x && c3 in colors && c3 != x && c3 != c2 then [Home5(x, c2, c3)] else []
    case _ => []
  }

  lemma ChildrenInPlaceBlock(colors: seq<string>, x: string, y: string, q: Option<Node>)
    requires Distinct(colors)
    ensures ChildrenIn(PlaceBlock(colors, x, y), q)
            == if y == x then []
               else (if q == Some(Grab1(x)) then [Place2(x, y)] else []) + TopKids(x, y, colors, q)
  {
    if y != x {
      ChildrenInAppend([Place2(x, y)], TopBlocks(x, y, colors), q);
      ChildrenInTopBlocks(x, y, colors, q);
      assert [Place2(x, y)][..0] == [];
    }
  }

  lemma PlaceKidsStep(colors: seq<string>, x: string, init: seq<string>, y: string, q: Option<Node>)
    requires Distinct(colors) && y !in init
    ensures PlaceKids(colors, x, init + [y], q)
            == PlaceKids(colors, x, init, q) + ChildrenIn(PlaceBlock(colors, x, y), q)
  {
    ChildrenInPlaceBlock(colors, x, y, q);
    match q
    case Some(Grab1(c)) => PlaceKidsStepGrab(colors, x, init, y, c);
    case Some(Place2(c, c2)) => PlaceKidsStepLevel(colors, x, init, y, c, c2, q);
    case Some(Grab3(c, c2, _)) => PlaceKidsStepLevel(colors, x, init, y, c, c2, q);
    case Some(Place4(c, c2, _)) => PlaceKidsStepLevel(colors, x, init, y, c, c2, q);
    case _ =>
  }

  lemma PlaceKidsStepGrab(colors: seq<string>, x: string, init: seq<string>, y: string, c: string)
    requires Distinct(colors) && y !in init
    ensures PlaceKids(colors, x, init + [y], Some(Grab1(c)))
            == PlaceKids(colors, x, init, Some(Grab1(c))) + ChildrenIn(PlaceBlock(colors, x, y), Some(Grab1(c)))
  {
    var cs := init + [y];
    assert cs[..|cs| - 1] == init;
    ChildrenInPlaceBlock(colors, x, y, Some(Grab1(c)));
  }

  /** The step for a parent at level 2, 3 or 4, whose first two colours are `c` and `c2`. */
  lemma PlaceKidsStepLevel(colors: seq<string>, x: string, init: seq<string>, y: string,
                           c: string, c2: string, q: Option<Node>)
    requires Distinct(colors) && y !in init
    requires q == Some(Place2(c, c2)) || (q.Some? && (q.value.Grab3? || q.value.Place4?)
                                          && q.value.c == c && q.value.c2 == c2)
    ensures PlaceKids(colors, x, init + [y], q)
            == PlaceKids(colors, x, init, q) + ChildrenIn(PlaceBlock(colors, x, y), q)
  {
    var cs := init + [y];
    assert c2 in cs <==> c2 in init || c2 == y;
    ChildrenInPlaceBlock(colors, x, y, q);
    if c != x || c2 == x || (c2 != y && c2 !in init) {
      assert PlaceKids(colors, x, cs, q) == [] && PlaceKids(colors, x, init, q) == [];
    } else if c2 == y {
      assert PlaceKids(colors, x, init, q) == [];
    } else {
      assert ChildrenIn(PlaceBlock(colors, x, y), q) == [];
    }
  }

  lemma {:induction false} ChildrenInPlaceBlocks(colors: seq<string>, x: string, cs: seq<string>, q: Option<Node>)
    requires Distinct(colors) && Distinct(cs)
    ensures ChildrenIn(PlaceBlocks(colors, x, cs), q) == PlaceKids(colors, x, cs, q)
  {
    if cs != [] {
      var init, y := cs[..|cs| - 1], cs[|cs| - 1];
      assert Distinct(init);
      assert cs == init + [y];
      assert y !in init;
      ChildrenInPlaceBlocks(colors, x, init, q);
      ChildrenInAppend(PlaceBlocks(colors, x, init), PlaceBlock(colors, x, y), q);
      PlaceKidsStep(colors, x, init, y, q);
    }
  }

  lemma ChildrenInRootBlock(colors: seq<string>, x: string, q: Option<Node>)
    requires Distinct(colors)
    ensures ChildrenIn(RootBlock(colors, x), q)
            == (if q.None? then [Grab1(x)] else []) + PlaceKids(colors, x, colors, q)
  {
    ChildrenInAppend([Grab1(x)], PlaceBlocks(colors, x, colors), q);
    ChildrenInPlaceBlocks(colors, x, colors, q);
    assert [Grab1(x)][..0] == [];
  }

  lemma PlanChildrenStep(colors: seq<string>, init: seq<string>, x: string, q: Option<Node>)
    requires Distinct(colors) && x !in init && x in colors
    ensures PlanChildren(colors, init + [x], q)
            == PlanChildren(colors, init, q) + ChildrenIn(RootBlock(colors, x), q)
  {
    ChildrenInRootBlock(colors, x, q);
    match q
    case None =>
      var cs := init + [x];
      assert cs[..|cs| - 1] == init;
    case Some(Home5(_, _, _)) =>
    case Some(p) => PlanChildrenStepLevel(colors, init, x, p.c, q);
  }

  /** The step for a parent below the root whose first colour is `c`. */
  lemma PlanChildrenStepLevel(colors: seq<string>, init: seq<string>, x: string, c: string, q: Option<Node>)
    requires Distinct(colors) && x !in init && x in colors
    requires q.Some? && !q.value.Home5? && q.value.c == c
    ensures PlanChildren(colors, init + [x], q)
            == PlanChildren(colors, init, q) + ChildrenIn(RootBlock(colors, x), q)
  {
    var cs := init + [x];
    assert c in cs <==> c in init || c == x;
    ChildrenInRootBlock(colors, x, q);
    if c == x {
      assert PlanChildren(colors, init, q) == [];
    } else {
      assert ChildrenIn(RootBlock(colors, x), q) == [];
    }
  }

  lemma {:induction false} ChildrenInRootBlocks(colors: seq<string>, cs: seq<string>, q: Option<Node>)
    requires Distinct(colors) && Distinct(cs) && forall c :: c in cs ==> c in colors
    ensures ChildrenIn(RootBlocks(colors, cs), q) == PlanChildren(colors, cs, q)
  {
    if cs != [] {
      var init, x := cs[..|cs| - 1], cs[|cs| - 1];
      assert Distinct(init);
      assert cs == init + [x];
      assert x !in init;
      ChildrenInRootBlocks(colors, init, q);
      ChildrenInAppend(RootBlocks(colors, init), RootBlock(colors, x), q);
      PlanChildrenStep(colors, init, x, q);
    }
  }

  /** Every node of the stacking plan only mentions listed colours. */
  lemma {:induction false} StackNodesOver(colors: seq<string>, cs: seq<string>)
    requires forall c :: c in cs ==> c in colors
    ensures AllOver(RootBlocks(colors, cs), colors)
  {
    if cs != [] {
      var init, x := cs[..|cs| - 1], cs[|cs| - 1];
      StackNodesOver(colors, init);
      forall y | y in colors
        ensures AllOver(TopBlocks(x, y, colors), colors)
      {
        TopBlocksOver(colors, x, y, colors);
      }
      PlaceBlocksOver(colors, x, colors);
    }
  }

  lemma {:induction false} TopBlocksOver(colors: seq<string>, x: string, y: string, cs: seq<string>)
    requires x in colors && y in colors && forall c :: c in cs ==> c in colors
    ensures AllOver(TopBlocks(x, y, cs), colors)
  {
    if cs != [] {
      TopBlocksOver(colors, x, y, cs[..|cs| - 1]);
    }
  }

  lemma {:induction false} PlaceBlocksOver(colors: seq<string>, x: string, cs: seq<string>)
    requires x in colors && forall c :: c in cs ==> c in colors
    requires forall y :: y in colors ==> AllOver(TopBlocks(x, y, colors), colors)
    ensures AllOver(PlaceBlocks(colors, x, cs), colors)
  {
    if cs != [] {
      PlaceBlocksOver(colors, x, cs[..|cs| - 1]);
    }
  }

  // ---------------------------------------------------------------------
  // The theorems about the built graphs.
  // ---------------------------------------------------------------------

  /** The graph `GetStackManager` builds. */
  function StackGraph(colors: seq<string>): Graph<Service, Request>
  {
    ApplyNodes(EmptyGraph(), StackNodes(colors))
  }

  /**
   * Over prefix-free colours, the child list stored under every plan node
   * (and under the root key) is the list of names of its plan children, in
   * the order the builder's loops add them.
   */
  lemma StackChildren(colors: seq<string>, q: Option<Node>)
    requires PrefixFree(colors) && OptOver(q, colors)
    ensures ChildrenOf(StackGraph(colors).children, KeyOf(q)) == Names(ExpectedChildren(colors, q))
  {
    PrefixFreeDistinct(colors);
    StackNodesOver(colors, colors);
    ApplyNodesChildren(colors, EmptyGraph(), StackNodes(colors), q);
    ChildrenInRootBlocks(colors, colors, q);
  }

  lemma {:induction false} KittingNodesLength(cs: seq<string>)
    ensures |KittingNodes(cs)| == |cs|
  {
    if cs != [] {
      KittingNodesLength(cs[..|cs| - 1]);
    }
  }

  lemma {:induction false} DistinctCount(cs: seq<string>, c: string)
    requires Distinct(cs)
    ensures multiset(cs)[c] == if c in cs then 1 else 0
  {
    if cs != [] {
      var init, x := cs[..|cs| - 1], cs[|cs| - 1];
      assert Distinct(init);
      DistinctCount(init, c);
      assert cs == init + [x];
      assert x !in init;
    }
  }

  lemma {:induction false} PlacesLength(c: string, cs: seq<string>)
    ensures |Places(c, cs)| == |cs| - multiset(cs)[c]
  {
    if cs != [] {
      var init := cs[..|cs| - 1];
      PlacesLength(c, init);
      assert cs == init + [cs[|cs| - 1]];
    }
  }

  lemma {:induction false} GrabsLength(c: string, c2: string, cs: seq<string>)
    requires c != c2
    ensures |Grabs(c, c2, cs)| == |cs| - multiset(cs)[c] - multiset(cs)[c2]
  {
    if cs != [] {
      var init := cs[..|cs| - 1];
      GrabsLength(c, c2, init);
      assert cs == init + [cs[|cs| - 1]];
    }
  }

  /**
   * The tree has the fan-out of the plan: n roots; n-1 places under each
   * root; n-2 grabs under each place; one child under each level-3 and
   * level-4 node; none under a home move.
   */
  lemma StackFanOut(colors: seq<string>, q: Option<Node>)
    requires PrefixFree(colors) && (q.None? || ValidNode(q.value, colors))
    ensures |ChildrenOf(StackGraph(colors).children, KeyOf(q))|
            == match q
               case None => |colors|
               case Some(Grab1(_)) => |colors| - 1
               case Some(Place2(_, _)) => |colors| - 2
               case Some(Grab3(_, _, _)) => 1
               case Some(Place4(_, _, _)) => 1
               case Some(Home5(_, _, _)) => 0
  {
    StackChildren(colors, q);
    PrefixFreeDistinct(colors);
    match q
    case None => KittingNodesLength(colors);
    case Some(Grab1(c)) =>
      PlacesLength(c, colors);
      DistinctCount(colors, c);
    case Some(Place2(c, c2)) =>
      GrabsLength(c, c2, colors);
      DistinctCount(colors, c);
      DistinctCount(colors, c2);
    case Some(Grab3(_, _, _)) =>
    case Some(Place4(_, _, _)) =>
    case Some(Home5(_, _, _)) =>
  }

  lemma {:induction false} KittingNodesMember(cs: seq<string>, n: Node)
    ensures n in KittingNodes(cs) <==> n.Grab1? && n.c in cs
  {
    if cs != [] {
      var init := cs[..|cs| - 1];
      KittingNodesMember(init, n);
      assert cs == init + [cs[|cs| - 1]];
    }
  }

  lemma {:induction false} PlacesMember(c: string, cs: seq<string>, n: Node)
    ensures n in Places(c, cs) <==> n.Place2? && n.c == c && n.c2 in cs && n.c2 != c
  {
    if cs != [] {
      var init := cs[..|cs| - 1];
      PlacesMember(c, init, n);
      assert cs == init + [cs[|cs| - 1]];
    }
  }

  lemma {:induction false} GrabsMember(c: string, c2: string, cs: seq<string>, n: Node)
    ensures n in Grabs(c, c2, cs) <==> n.Grab3? && n.c == c && n.c2 == c2 && n.c3 in cs && n.c3 != c && n.c3 != c2
  {
    if cs != [] {
      var init := cs[..|cs| - 1];
      GrabsMember(c, c2, init, n);
      assert cs == init + [cs[|cs| - 1]];
    }
  }

  /** A node is in the plan's child list of `q` exactly when it is a valid node whose parent is `q`. */
  lemma ExpectedChildrenMember(colors: seq<string>, q: Option<Node>, n: Node)
    ensures n in ExpectedChildren(colors, q) <==> ValidNode(n, colors) && NodeParent(n) == q
  {
    match q
    case None => KittingNodesMember(colors, n);
    case Some(Grab1(c)) => PlacesMember(c, colors, n);
    case Some(Place2(c, c2)) => GrabsMember(c, c2, colors, n);
    case Some(Grab3(_, _, _)) =>
    case Some(Place4(_, _, _)) =>
    case Some(Home5(_, _, _)) =>
  }

  /** The stacking plan adds exactly the valid nodes over the colours. */
  lemma StackNodesMember(colors: seq<string>, n: Node)
    requires PrefixFree(colors)
    ensures n in StackNodes(colors) <==> ValidNode(n, colors)
  {
    PrefixFreeDistinct(colors);
    var q := NodeParent(n);
    ChildrenInRootBlocks(colors, colors, q);
    ChildrenInMember(StackNodes(colors), q, n);
    ExpectedChildrenMember(colors, q, n);
  }

  /**
   * Every action of the plan is registered with its own request: grasps of
   * the first and third colour, a release on the second, a release for the
   * FIRST colour at level 4, and the home move.
   */
  lemma StackRequests(colors: seq<string>, n: Node)
    requires PrefixFree(colors) && ValidNode(n, colors)
    ensures NodeName(n) in StackGraph(colors).reqs
    ensures StackGraph(colors).reqs[NodeName(n)] == NodeRequest(n)
  {
    StackNodesMember(colors, n);
    StackNodesOver(colors, colors);
    ApplyNodesReqs(colors, EmptyGraph(), StackNodes(colors), n);
  }

  /**
   * Every action sits under exactly one parent: its name is in the child
   * list of `q` exactly when `q` is its plan parent.
   */
  lemma StackSingleParent(colors: seq<string>, n: Node, q: Option<Node>)
    requires PrefixFree(colors) && ValidNode(n, colors) && OptOver(q, colors)
    ensures NodeName(n) in ChildrenOf(StackGraph(colors).children, KeyOf(q)) <==> q == NodeParent(n)
  {
    StackChildren(colors, q);
    var kids := ExpectedChildren(colors, q);
    assert AllOver(kids, colors) by {
      forall i | 0 <= i < |kids| ensures Over(kids[i], colors) {
        ExpectedChildrenMember(colors, q, kids[i]);
      }
    }
    NamesMember(colors, kids, n);
    ExpectedChildrenMember(colors, q, n);
  }

  /** No place action of the plan puts a block on itself. */
  lemma StackPlacesPassCheck(colors: seq<string>, n: Node)
    requires PrefixFree(colors) && n in StackNodes(colors) && n.Place2?
    ensures CheckBlocks1And2(n.c, n.c2)
  {
    StackNodesMember(colors, n);
  }

  /** The graph `GetKittingManager` builds. */
  function KittingGraph(colors: seq<string>): Graph<Service, Request>
  {
    ApplyNodes(EmptyGraph(), KittingNodes(colors))
  }

  /** The kitting plan is the roots alone: one grab per colour, nothing under any of them. */
  lemma KittingChildren(colors: seq<string>, q: Option<Node>)
    requires PrefixFree(colors) && OptOver(q, colors)
    ensures ChildrenOf(KittingGraph(colors).children, KeyOf(q))
            == if q.None? then Names(KittingNodes(colors)) else []
  {
    assert AllOver(KittingNodes(colors), colors) by {
      forall i | 0 <= i < |KittingNodes(colors)|
        ensures Over(KittingNodes(colors)[i], colors)
      {
        KittingNodesMember(colors, KittingNodes(colors)[i]);
      }
    }
    ApplyNodesChildren(colors, EmptyGraph(), KittingNodes(colors), q);
    KittingRoots(colors, q);
  }

  lemma {:induction false} KittingRoots(cs: seq<string>, q: Option<Node>)
    ensures ChildrenIn(KittingNodes(cs), q) == if q.None? then KittingNodes(cs) else []
  {
    if cs != [] {
      KittingRoots(cs[..|cs| - 1], q);
    }
  }
}
