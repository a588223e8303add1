/**
 * The stacking plan of `stack.py`: the smart-move request builders and the
 * two plan builders that fill a `StackManager` with `addRequest`.
 *
 * The stacking plan is a depth-5 tree per ordered triple of distinct colours:
 * grab the first colour, place it on the second, grab the third, place it on
 * the stack, move home.  Each action of the plan is identified by a `Node`;
 * `NodeName` renders the action name the source formats, and the tree-shape
 * lemmas are stated over the graph that the builder produces.
 *
 * The colour list comes from `GetColors()`, which is not part of this model;
 * it is a parameter here.  Poses are opaque values.
 */
module StackPlan {
  import opened Wrappers
  import opened StackManagement

  /** The pose attached to a request; the geometry itself is not modelled. */
  datatype Pose = GraspPose | StackPose

  datatype PoseVariable = PoseZ

  /** `Constraint(pose_variable, threshold, greater)` of a place request. */
  datatype Constraint = Constraint(poseVariable: PoseVariable, threshold: real, greater: bool)

  datatype SmartMoveRequest = SmartMoveRequest(pose: Pose, objClass: string, name: string,
                                               backoff: real, vel: real, accel: real,
                                               constraints: seq<Constraint>)

  /** A request of the plan: a smart move, or the joint-space home request of `GetHomeRequest`. */
  datatype Request = SmartMove(move: SmartMoveRequest) | HomeRequest

  /** The service handles the plan uses: smart grasp, smart release, plan to joint state. */
  datatype Service = SmartGrasp | SmartRelease | PlanToJointState

  /** `_makeSmartGraspRequest` once the colour is known to be valid. */
  function GraspRequest(color: string): SmartMoveRequest
  {
    SmartMoveRequest(GraspPose, color + "_cube", "grasp_" + color + "_cube", 0.075, 1.0, 0.75, [])
  }

  /** `_makeSmartReleaseRequest` once the colour is known to be valid. */
  function ReleaseRequest(color: string): SmartMoveRequest
  {
    SmartMoveRequest(StackPose, color + "_cube", "place_on_" + color, 0.075, 1.0, 0.75,
                     [Constraint(PoseZ, 0.015, true)])
  }

  function NotRecognized(color: string): string
  {
    "color " + color + " not recognized"
  }

  /**
   * `_makeSmartGraspRequest(color)`: raises for a colour outside the colour
   * list; otherwise asks to grasp the object class `<color>_cube`.
   */
  function MakeSmartGraspRequest(colors: seq<string>, color: string): (r: Result<SmartMoveRequest, string>)
    ensures r.Failure? <==> color !in colors
    ensures r.Failure? ==> r.error == NotRecognized(color)
    ensures r.Success? ==> && r.value.objClass == color + "_cube"
                           && r.value.name == "grasp_" + r.value.objClass
                           && r.value.pose == GraspPose && r.value.constraints == []
  {
    if color !in colors then Failure(NotRecognized(color)) else Success(GraspRequest(color))
  }

  /**
   * `_makeSmartReleaseRequest(color)`: raises for a colour outside the colour
   * list; otherwise places on `<color>` with exactly one constraint, a lower
   * bound of 0.015 on the z coordinate.
   */
  function MakeSmartReleaseRequest(colors: seq<string>, color: string): (r: Result<SmartMoveRequest, string>)
    ensures r.Failure? <==> color !in colors
    ensures r.Failure? ==> r.error == NotRecognized(color)
    ensures r.Success? ==> && r.value.name == "place_on_" + color
                           && r.value.objClass == color + "_cube"
                           && r.value.pose == StackPose
                           && r.value.constraints == [Constraint(PoseZ, 0.015, true)]
  {
    if color !in colors then Failure(NotRecognized(color)) else Success(ReleaseRequest(color))
  }

  /**
   * Requests for different colours carry different names, and a grasp
   * request never has the name of a release request.
   */
  lemma RequestNamesDistinct(c: string, d: string)
    ensures c != d ==> GraspRequest(c).name != GraspRequest(d).name
    ensures c != d ==> ReleaseRequest(c).name != ReleaseRequest(d).name
    ensures GraspRequest(c).name != ReleaseRequest(d).name
  {
    var g, h := GraspRequest(c).name, GraspRequest(d).name;
    var r, s := ReleaseRequest(c).name, ReleaseRequest(d).name;
    assert g[0] == 'g' && s[0] == 'p';
    assert g[6..|g| - 5] == c && h[6..|h| - 5] == d;
    assert r[9..] == c && s[9..] == d;
  }

  /** `_checkBlocks1And2`: a block may not be placed on itself. */
  function CheckBlocks1And2(block1: string, block2: string): bool
  {
    block1 != block2
  }

  /** An action of the stacking plan, by level and the colours it involves. */
  datatype Node =
    | Grab1(c: string)                          // "1:grab_<c>"
    | Place2(c: string, c2: string)             // "2<c2>:place_<c>_on_<c2>"
    | Grab3(c: string, c2: string, c3: string)  // "3<c><c2>:grab_<c3>"
    | Place4(c: string, c2: string, c3: string) // "4<c><c2>:place_<c3>_on_<c2><c>"
    | Home5(c: string, c2: string, c3: string)  // "5<c><c2><c3>:move_to_home"

  /** The action name that `GetStackManager` formats for a node. */
  function NodeName(n: Node): Name
  {
    match n
    case Grab1(c) => "1:grab_" + c
    case Place2(c, c2) => "2" + c2 + ":place_" + c + "_on_" + c2
    case Grab3(c, c2, c3) => "3" + c + c2 + ":grab_" + c3
    case Place4(c, c2, c3) => "4" + c + c2 + ":place_" + c3 + "_on_" + c2 + c
    case Home5(c, c2, c3) => "5" + c + c2 + c3 + ":move_to_home"
  }

  /** The node each action is added under (`None` for the roots). */
  function NodeParent(n: Node): Option<Node>
  {
    match n
    case Grab1(_) => None
    case Place2(c, _) => Some(Grab1(c))
    case Grab3(c, c2, _) => Some(Place2(c, c2))
    case Place4(c, c2, c3) => Some(Grab3(c, c2, c3))
    case Home5(c, c2, c3) => Some(Place4(c, c2, c3))
  }

  /** The parent argument of the node's `addRequest` call. */
  function ParentKeyOf(n: Node): ParentKey
  {
    match NodeParent(n)
    case None => None
    case Some(p) => Some(NodeName(p))
  }

  /**
   * The (service, request) pair of each action: grasps of the first and
   * third colour, a release on the second colour, a release whose request
   * names the FIRST colour, and the home move.
   */
  function NodeRequest(n: Node): (Service, Request)
  {
    match n
    case Grab1(c) => (SmartGrasp, SmartMove(GraspRequest(c)))
    case Place2(_, c2) => (SmartRelease, SmartMove(ReleaseRequest(c2)))
    case Grab3(_, _, c3) => (SmartGrasp, SmartMove(GraspRequest(c3)))
    case Place4(c, _, _) => (SmartRelease, SmartMove(ReleaseRequest(c)))
    case Home5(_, _, _) => (PlanToJointState, HomeRequest)
  }

  /** The innermost loop body: three actions for a third colour distinct from the first two. */
  function TopBlock(c: string, c2: string, c3: string): seq<Node>
  {
    if c3 == c || c3 == c2 then [] else [Grab3(c, c2, c3), Place4(c, c2, c3), Home5(c, c2, c3)]
  }

  /** The innermost loop over the third colours `cs`, in order. */
  function TopBlocks(c: string, c2: string, cs: seq<string>): seq<Node>
  {
    if cs == [] then [] else TopBlocks(c, c2, cs[..|cs| - 1]) + TopBlock(c, c2, cs[|cs| - 1])
  }

  /** The middle loop body: a place node for a second colour, then its subtrees. */
  function PlaceBlock(colors: seq<string>, c: string, c2: string): seq<Node>
  {
    if c2 == c then [] else [Place2(c, c2)] + TopBlocks(c, c2, colors)
  }

  /** The middle loop over the second colours `cs`, in order. */
  function PlaceBlocks(colors: seq<string>, c: string, cs: seq<string>): seq<Node>
  {
    if cs == [] then [] else PlaceBlocks(colors, c, cs[..|cs| - 1]) + PlaceBlock(colors, c, cs[|cs| - 1])
  }

  /** The outer loop body: a root for the first colour, then its subtrees. */
  function RootBlock(colors: seq<string>, c: string): seq<Node>
  {
    [Grab1(c)] + PlaceBlocks(colors, c, colors)
  }

  /** The outer loop over the first colours `cs`, in order. */
  function RootBlocks(colors: seq<string>, cs: seq<string>): seq<Node>
  {
    if cs == [] then [] else RootBlocks(colors, cs[..|cs| - 1]) + RootBlock(colors, cs[|cs| - 1])
  }

  /** Every `addRequest` of `GetStackManager`, in call order. */
  function StackNodes(colors: seq<string>): seq<Node>
  {
    RootBlocks(colors, colors)
  }

  /** Every `addRequest` of `GetKittingManager`, in call order: one root per colour. */
  function KittingNodes(cs: seq<string>): seq<Node>
  {
    if cs == [] then [] else KittingNodes(cs[..|cs| - 1]) + [Grab1(cs[|cs| - 1])]
  }

  /** The `addRequest` call a builder makes for node `n`. */
  function AddNodeTo(g: Graph<Service, Request>, n: Node): Graph<Service, Request>
  {
    AddedRequest(g, One(ParentKeyOf(n)), NodeName(n), NodeRequest(n).0, NodeRequest(n).1)
  }

  /** The graph left by calling `addRequest` for each node in order. */
  function ApplyNodes(g: Graph<Service, Request>, ns: seq<Node>): Graph<Service, Request>
  {
    if ns == [] then g else AddNodeTo(ApplyNodes(g, ns[..|ns| - 1]), ns[|ns| - 1])
  }

  /** Adding two runs of nodes is adding the first, then the second. */
  lemma {:induction false} ApplyNodesAppend(g: Graph<Service, Request>, a: seq<Node>, b: seq<Node>)
    ensures ApplyNodes(g, a + b) == ApplyNodes(ApplyNodes(g, a), b)
    decreases |b|
  {
    if b == [] {
      assert a + b == a;
    } else {
      ApplyNodesAppend(g, a, b[..|b| - 1]);
      assert (a + b)[..|a + b| - 1] == a + b[..|b| - 1];
    }
  }

  lemma {:induction false} ApplyNodesWellFormed(g: Graph<Service, Request>, ns: seq<Node>)
    requires g.WellFormed()
    ensures ApplyNodes(g, ns).WellFormed()
  {
    if ns != [] {
      var n := ns[|ns| - 1];
      ApplyNodesWellFormed(g, ns[..|ns| - 1]);
      AddRequestWellFormed(ApplyNodes(g, ns[..|ns| - 1]), One(ParentKeyOf(n)), NodeName(n),
                           NodeRequest(n).0, NodeRequest(n).1);
    }
  }

  /** One more colour of a prefix-recursive loop adds that colour's block. */
  lemma TopBlocksStep(g: Graph<Service, Request>, c: string, c2: string, cs: seq<string>, k: nat)
    requires k < |cs|
    ensures ApplyNodes(g, TopBlocks(c, c2, cs[..k + 1]))
            == ApplyNodes(ApplyNodes(g, TopBlocks(c, c2, cs[..k])), TopBlock(c, c2, cs[k]))
  {
    assert cs[..k + 1][..k] == cs[..k];
    ApplyNodesAppend(g, TopBlocks(c, c2, cs[..k]), TopBlock(c, c2, cs[k]));
  }

  lemma PlaceBlocksStep(g: Graph<Service, Request>, colors: seq<string>, c: string, cs: seq<string>, j: nat)
    requires j < |cs|
    ensures ApplyNodes(g, PlaceBlocks(colors, c, cs[..j + 1]))
            == ApplyNodes(ApplyNodes(g, PlaceBlocks(colors, c, cs[..j])), PlaceBlock(colors, c, cs[j]))
  {
    assert cs[..j + 1][..j] == cs[..j];
    ApplyNodesAppend(g, PlaceBlocks(colors, c, cs[..j]), PlaceBlock(colors, c, cs[j]));
  }

  lemma RootBlocksStep(g: Graph<Service, Request>, colors: seq<string>, cs: seq<string>, i: nat)
    requires i < |cs|
    ensures ApplyNodes(g, RootBlocks(colors, cs[..i + 1]))
            == ApplyNodes(ApplyNodes(g, RootBlocks(colors, cs[..i])), RootBlock(colors, cs[i]))
  {
    assert cs[..i + 1][..i] == cs[..i];
    ApplyNodesAppend(g, RootBlocks(colors, cs[..i]), RootBlock(colors, cs[i]));
  }

  lemma KittingNodesStep(g: Graph<Service, Request>, cs: seq<string>, i: nat)
    requires i < |cs|
    ensures ApplyNodes(g, KittingNodes(cs[..i + 1])) == AddNodeTo(ApplyNodes(g, KittingNodes(cs[..i])), Grab1(cs[i]))
  {
    assert cs[..i + 1][..i] == cs[..i];
  }

  /** A block that starts with one node is that node, then the rest. */
  lemma ApplyCons(g: Graph<Service, Request>, n: Node, rest: seq<Node>)
    ensures ApplyNodes(g, [n] + rest) == ApplyNodes(AddNodeTo(g, n), rest)
  {
    ApplyNodesAppend(g, [n], rest);
    assert ApplyNodes(g, [n]) == AddNodeTo(ApplyNodes(g, []), n);
  }

  /** The three nodes of a top block, added in order. */
  lemma ApplyTopBlock(g: Graph<Service, Request>, c: string, c2: string, c3: string)
    requires c3 != c && c3 != c2
    ensures ApplyNodes(g, TopBlock(c, c2, c3))
            == AddNodeTo(AddNodeTo(AddNodeTo(g, Grab3(c, c2, c3)), Place4(c, c2, c3)), Home5(c, c2, c3))
  {
    var t := TopBlock(c, c2, c3);
    assert t[..2] == [Grab3(c, c2, c3), Place4(c, c2, c3)];
    assert t[..2][..1] == [Grab3(c, c2, c3)];
    assert t[..2][..1][..0] == [];
    assert ApplyNodes(g, t[..2][..1]) == AddNodeTo(g, Grab3(c, c2, c3));
    assert ApplyNodes(g, t[..2]) == AddNodeTo(ApplyNodes(g, t[..2][..1]), Place4(c, c2, c3));
  }

  /**
   * One `addRequest` call of a builder, for plan node `n`: the builder passes
   * the node's parent key, name and request, and the graph grows by exactly
   * that node.
   */
  method AddNode(sm: StackManager<Service, Request>, parent: ParentKey, name: Name, srv: Service,
                 req: Request, ghost n: Node)
    requires sm.Valid() && sm.State() == InitialState()
    requires parent == ParentKeyOf(n) && name == NodeName(n) && (srv, req) == NodeRequest(n)
    modifies sm
    ensures sm.Valid() && sm.State() == InitialState()
    ensures sm.TaskGraph() == AddNodeTo(old(sm.TaskGraph()), n)
  {
    sm.AddRequest(One(parent), name, srv, req);
  }

  /**
   * The innermost loop of `GetStackManager`: for each third colour distinct
   * from the first two, a grab, a place and a home action, each under the
   * previous one.
   */
  method AddTopBlocks(sm: StackManager<Service, Request>, colors: seq<string>, color: string,
                      color2: string, name2: Name)
    requires sm.Valid() && sm.State() == InitialState()
    requires color in colors && name2 == NodeName(Place2(color, color2))
    modifies sm
    ensures sm.Valid() && sm.State() == InitialState()
    ensures sm.TaskGraph() == ApplyNodes(old(sm.TaskGraph()), TopBlocks(color, color2, colors))
  {
    ghost var g0 := sm.TaskGraph();
    for k := 0 to |colors|
      invariant sm.Valid() && sm.State() == InitialState()
      invariant sm.TaskGraph() == ApplyNodes(g0, TopBlocks(color, color2, colors[..k]))
    {
      var color3 := colors[k];
      TopBlocksStep(g0, color, color2, colors, k);
      if color3 != color && color3 != color2 {
        ApplyTopBlock(sm.TaskGraph(), color, color2, color3);
        var name3 := "3" + color + color2 + ":grab_" + color3;
        var req3 := MakeSmartGraspRequest(colors, color3);
        AddNode(sm, Some(name2), name3, SmartGrasp, SmartMove(req3.value), Grab3(color, color2, color3));
        var name4 := "4" + color + color2 + ":place_" + color3 + "_on_" + color2 + color;
        var req4 := MakeSmartReleaseRequest(colors, color);
        AddNode(sm, Some(name3), name4, SmartRelease, SmartMove(req4.value), Place4(color, color2, color3));
        var name5 := "5" + color + color2 + color3 + ":move_to_home";
        AddNode(sm, Some(name4), name5, PlanToJointState, HomeRequest, Home5(color, color2, color3));
      }
    }
    assert colors[..|colors|] == colors;
  }

  /**
   * The middle loop of `GetStackManager`: for each second colour distinct
   * from the first, a place action under the root grab, then its subtrees.
   */
  method AddPlaceBlocks(sm: StackManager<Service, Request>, colors: seq<string>, color: string, name: Name)
    requires sm.Valid() && sm.State() == InitialState()
    requires color in colors && name == NodeName(Grab1(color))
    modifies sm
    ensures sm.Valid() && sm.State() == InitialState()
    ensures sm.TaskGraph() == ApplyNodes(old(sm.TaskGraph()), PlaceBlocks(colors, color, colors))
  {
    ghost var g0 := sm.TaskGraph();
    for j := 0 to |colors|
      invariant sm.Valid() && sm.State() == InitialState()
      invariant sm.TaskGraph() == ApplyNodes(g0, PlaceBlocks(colors, color, colors[..j]))
    {
      var color2 := colors[j];
      PlaceBlocksStep(g0, colors, color, colors, j);
      if color2 != color {
        ApplyCons(sm.TaskGraph(), Place2(color, color2), TopBlocks(color, color2, colors));
        var name2 := "2" + color2 + ":place_" + color + "_on_" + color2;
        var req2 := MakeSmartReleaseRequest(colors, color2);
        AddNode(sm, Some(name), name2, SmartRelease, SmartMove(req2.value), Place2(color, color2));
        AddTopBlocks(sm, colors, color, color2, name2);
      }
    }
    assert colors[..|colors|] == colors;
  }

  /**
   * `GetStackManager`: a fresh manager filled by three nested loops over the
   * colours; its graph is the one the plan's nodes describe.
   */
  method GetStackManager(colors: seq<string>) returns (sm: StackManager<Service, Request>)
    ensures fresh(sm) && sm.Valid()
    ensures sm.TaskGraph() == ApplyNodes(EmptyGraph(), StackNodes(colors))
    ensures sm.State() == InitialState()
  {
    sm := new StackManager();
    for i := 0 to |colors|
      invariant sm.Valid() && sm.State() == InitialState()
      invariant sm.TaskGraph() == ApplyNodes(EmptyGraph(), RootBlocks(colors, colors[..i]))
    {
      var color := colors[i];
      RootBlocksStep(EmptyGraph(), colors, colors, i);
      ApplyCons(sm.TaskGraph(), Grab1(color), PlaceBlocks(colors, color, colors));
      var name := "1:grab_" + color;
      var req := MakeSmartGraspRequest(colors, color);
      AddNode(sm, None, name, SmartGrasp, SmartMove(req.value), Grab1(color));
      AddPlaceBlocks(sm, colors, color, name);
    }
    assert colors[..|colors|] == colors;
  }

  /** `GetKittingManager`: one root grab action per colour and nothing else. */
  method GetKittingManager(colors: seq<string>) returns (sm: StackManager<Service, Request>)
    ensures fresh(sm) && sm.Valid()
    ensures sm.TaskGraph() == ApplyNodes(EmptyGraph(), KittingNodes(colors))
    ensures sm.State() == InitialState()
  {
    sm := new StackManager();
    for i := 0 to |colors|
      invariant sm.Valid() && sm.State() == InitialState()
      invariant sm.TaskGraph() == ApplyNodes(EmptyGraph(), KittingNodes(colors[..i]))
    {
      var color := colors[i];
      KittingNodesStep(EmptyGraph(), colors, i);
      var name := "1:grab_" + color;
      var req := MakeSmartGraspRequest(colors, color);
      AddNode(sm, None, name, SmartGrasp, SmartMove(req.value), Grab1(color));
    }
    assert colors[..|colors|] == colors;
  }
}
