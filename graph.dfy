/**
 * The editable graph: nodes that remember their predecessors and links, the
 * links between them, and the drawing board that owns the node list and the
 * state of a connection being drawn. Drawing on the canvas is not modelled;
 * an SVG circle is identified by its port index and the preview line by
 * whether it exists.
 */
module Graph {
  import opened Wrappers
  import opened Strings
  import opened NodeTypes

  /** A node as saved graph data lists it. */
  datatype NodeData = NodeData(nodeType: string, varName: string, nIn: int, nOut: int)

  /** One end of a saved link: the node's name and the index of its circle. */
  datatype Endpoint = Endpoint(varName: string, circleIndex: int)

  datatype LinkData = LinkData(source: Endpoint, target: Endpoint)

  datatype GraphData = GraphData(nodes: seq<NodeData>, links: seq<LinkData>)

  /** The output variable names of `nodes`, in order. */
  function OutVarNames(nodes: seq<ModuleNode>): (r: seq<string>)
    ensures |r| == |nodes|
    ensures forall i :: 0 <= i < |nodes| ==> r[i] == nodes[i].outVarName
  {
    if nodes == [] then [] else OutVarNames(nodes[..|nodes| - 1]) + [nodes[|nodes| - 1].outVarName]
  }

  /** The argument list of a node's call: its predecessors' output names joined by `", "`. */
  function Arguments(prevNodes: seq<ModuleNode>): string
  {
    Join(OutVarNames(prevNodes), ", ")
  }

  /** The nodes of `nodes` whose type is `nodeType`, in order. */
  function OfType(nodes: seq<ModuleNode>, nodeType: string): seq<ModuleNode>
  {
    if nodes == [] then []
    else OfType(nodes[..|nodes| - 1], nodeType)
         + (if nodes[|nodes| - 1].nodeType == nodeType then [nodes[|nodes| - 1]] else [])
  }

  /** The filtered list `OfType(nodes, nodeType)` holds exactly the nodes of `nodes` whose type is `nodeType`. */
  lemma {:induction false} OfTypeSelects(nodes: seq<ModuleNode>, nodeType: string)
    ensures forall n :: n in OfType(nodes, nodeType) <==> n in nodes && n.nodeType == nodeType
  {
    if nodes != [] {
      var init := nodes[..|nodes| - 1];
      OfTypeSelects(init, nodeType);
      assert nodes == init + [nodes[|nodes| - 1]];
    }
  }

  lemma OfTypeSnoc(nodes: seq<ModuleNode>, n: ModuleNode, nodeType: string)
    ensures OfType(nodes + [n], nodeType) == OfType(nodes, nodeType) + (if n.nodeType == nodeType then [n] else [])
  {
    assert (nodes + [n])[..|nodes|] == nodes;
  }

  // ---------------------------------------------------------------------------
  // Resolving a saved link's endpoints by name.

  /** The names of `nodes`, in order. */
  function VarNames(nodes: seq<ModuleNode>): (r: seq<string>)
    ensures |r| == |nodes|
    ensures forall i :: 0 <= i < |nodes| ==> r[i] == nodes[i].varName
  {
    if nodes == [] then [] else VarNames(nodes[..|nodes| - 1]) + [nodes[|nodes| - 1].varName]
  }

  /**
   * The node a name resolves to when every node is compared in turn and each
   * match overwrites the previous one: the last node with that name, or none.
   */
  function Resolve(nodes: seq<ModuleNode>, name: string): ModuleNode?
  {
    if nodes == [] then null
    else if nodes[|nodes| - 1].varName == name then nodes[|nodes| - 1]
    else Resolve(nodes[..|nodes| - 1], name)
  }

  /** A name resolves exactly when some node carries it, and then to a node of that name. */
  lemma {:induction false} ResolveFinds(nodes: seq<ModuleNode>, name: string)
    ensures Resolve(nodes, name) == null <==> name !in VarNames(nodes)
    ensures Resolve(nodes, name) != null ==> Resolve(nodes, name) in nodes && Resolve(nodes, name).varName == name
  {
    if nodes != [] {
      var init := nodes[..|nodes| - 1];
      assert VarNames(nodes) == VarNames(init) + [nodes[|nodes| - 1].varName];
      ResolveFinds(init, name);
    }
  }

  /** A name that resolves resolves to a node no later node shares its name with. */
  lemma {:induction false} ResolveIsLastMatch(nodes: seq<ModuleNode>, name: string)
    requires name in VarNames(nodes)
    ensures exists i :: 0 <= i < |nodes| && nodes[i] == Resolve(nodes, name)
                        && (forall j :: i < j < |nodes| ==> nodes[j].varName != name)
  {
    var n := |nodes|;
    ResolveFinds(nodes, name);
    if nodes[n - 1].varName == name {
      assert nodes[n - 1] == Resolve(nodes, name);
    } else {
      var init := nodes[..n - 1];
      assert VarNames(nodes) == VarNames(init) + [nodes[n - 1].varName];
      ResolveIsLastMatch(init, name);
      var i :| 0 <= i < n - 1 && init[i] == Resolve(init, name)
        && forall j :: i < j < n - 1 ==> init[j].varName != name;
      assert nodes[i] == Resolve(nodes, name);
    }
  }

  /** Names that are not shared resolve to the node that carries them. */
  lemma UniqueNameResolves(nodes: seq<ModuleNode>, i: nat)
    requires i < |nodes|
    requires forall j :: 0 <= j < |nodes| && j != i ==> nodes[j].varName != nodes[i].varName
    ensures Resolve(nodes, nodes[i].varName) == nodes[i]
  {
    ResolveIsLastMatch(nodes, nodes[i].varName);
  }

  /**
   * Both ends of `link` name a node of `nodes`, at a circle that node has: an
   * output circle `0 .. nOut - 1` at the source, an input circle `0 .. nIn - 1`
   * at the target.
   */
  predicate LinkFits(nodes: seq<ModuleNode>, link: LinkData)
  {
    var source, target := Resolve(nodes, link.source.varName), Resolve(nodes, link.target.varName);
    && source != null && 0 <= link.source.circleIndex < source.nOut
    && target != null && 0 <= link.target.circleIndex < target.nIn
  }

  predicate LinksFit(nodes: seq<ModuleNode>, links: seq<LinkData>)
  {
    forall k :: 0 <= k < |links| ==> LinkFits(nodes, links[k])
  }

  /** How saved graph data would describe node `n`. */
  function Shape(n: ModuleNode): NodeData
  {
    NodeData(n.nodeType, n.varName, n.nIn, n.nOut)
  }

  /** The descriptions of `nodes`, in order. */
  function Shapes(nodes: seq<ModuleNode>): (r: seq<NodeData>)
    ensures |r| == |nodes|
    ensures forall i :: 0 <= i < |nodes| ==> r[i] == Shape(nodes[i])
  {
    if nodes == [] then [] else Shapes(nodes[..|nodes| - 1]) + [Shape(nodes[|nodes| - 1])]
  }

  /** `Resolve` on node descriptions: the last one carrying `name`, or none. */
  function ResolveData(shapes: seq<NodeData>, name: string): Option<NodeData>
  {
    if shapes == [] then None
    else if shapes[|shapes| - 1].varName == name then Some(shapes[|shapes| - 1])
    else ResolveData(shapes[..|shapes| - 1], name)
  }

  /** `LinkFits`, stated on node descriptions. */
  predicate DataLinkFits(shapes: seq<NodeData>, link: LinkData)
  {
    var source, target := ResolveData(shapes, link.source.varName), ResolveData(shapes, link.target.varName);
    && source.Some? && 0 <= link.source.circleIndex < source.value.nOut
    && target.Some? && 0 <= link.target.circleIndex < target.value.nIn
  }

  predicate DataLinksFit(shapes: seq<NodeData>, links: seq<LinkData>)
  {
    forall k :: 0 <= k < |links| ==> DataLinkFits(shapes, links[k])
  }

  /** Resolving a name among nodes and among their descriptions finds the same node. */
  lemma {:induction false} ResolveMatchesShapes(nodes: seq<ModuleNode>, name: string)
    ensures ResolveData(Shapes(nodes), name)
         == if Resolve(nodes, name) == null then None else Some(Shape(Resolve(nodes, name)))
  {
    if nodes != [] {
      var init := nodes[..|nodes| - 1];
      assert Shapes(nodes)[..|nodes| - 1] == Shapes(init);
      ResolveMatchesShapes(init, name);
    }
  }

  /** Nodes created from saved data are described by that data, after the existing ones. */
  lemma ShapesAfterAdding(before: seq<ModuleNode>, added: seq<ModuleNode>, data: seq<NodeData>, board: DrawingBoard)
    requires |added| == |data| && forall i :: 0 <= i < |data| ==> added[i].Describes(data[i], board)
    ensures Shapes(before + added) == Shapes(before) + data
  {
    var all, parts := Shapes(before + added), Shapes(before) + data;
    forall i | 0 <= i < |all|
      ensures all[i] == parts[i]
    {
      if i >= |before| {
        assert (before + added)[i] == added[i - |before|];
      }
    }
  }

  /** Saved links that fit the existing and the saved nodes fit the board once the saved nodes are created. */
  lemma LinksFitAfterAdding(before: seq<ModuleNode>, added: seq<ModuleNode>, data: GraphData, board: DrawingBoard)
    requires |added| == |data.nodes| && forall i :: 0 <= i < |data.nodes| ==> added[i].Describes(data.nodes[i], board)
    requires DataLinksFit(Shapes(before) + data.nodes, data.links)
    ensures LinksFit(before + added, data.links)
  {
    ShapesAfterAdding(before, added, data.nodes, board);
    forall k | 0 <= k < |data.links|
      ensures LinkFits(before + added, data.links[k])
    {
      ResolveMatchesShapes(before + added, data.links[k].source.varName);
      ResolveMatchesShapes(before + added, data.links[k].target.varName);
    }
  }

  /**
   * The predecessors that loading the first `k` of `links` appends to `n`: the
   * source of every such link whose target resolves to `n`, in link order.
   */
  function SourcesBefore(n: ModuleNode, links: seq<LinkData>, k: nat, nodes: seq<ModuleNode>): seq<ModuleNode>
    requires k <= |links|
  {
    if k == 0 then []
    else
      var source := Resolve(nodes, links[k - 1].source.varName);
      SourcesBefore(n, links, k - 1, nodes)
      + (if Resolve(nodes, links[k - 1].target.varName) == n && source != null then [source] else [])
  }

  /** The predecessors that loading all of `links` appends to `n`. */
  function SourcesInto(n: ModuleNode, links: seq<LinkData>, nodes: seq<ModuleNode>): seq<ModuleNode>
  {
    SourcesBefore(n, links, |links|, nodes)
  }

  /** Of the first `k` link objects of `created` (one per saved link), those whose saved source resolves to `n`. */
  function LinksFromBefore(n: ModuleNode, created: seq<ModuleLink>, links: seq<LinkData>, k: nat, nodes: seq<ModuleNode>): seq<ModuleLink>
    requires k <= |created| && k <= |links|
  {
    if k == 0 then []
    else
      LinksFromBefore(n, created, links, k - 1, nodes)
      + (if Resolve(nodes, links[k - 1].source.varName) == n then [created[k - 1]] else [])
  }

  /** Of the first `k` link objects of `created`, those whose saved target resolves to `n`. */
  function LinksIntoBefore(n: ModuleNode, created: seq<ModuleLink>, links: seq<LinkData>, k: nat, nodes: seq<ModuleNode>): seq<ModuleLink>
    requires k <= |created| && k <= |links|
  {
    if k == 0 then []
    else
      LinksIntoBefore(n, created, links, k - 1, nodes)
      + (if Resolve(nodes, links[k - 1].target.varName) == n then [created[k - 1]] else [])
  }

  /** The link objects of `created` whose saved source resolves to `n`. */
  function LinksFrom(n: ModuleNode, created: seq<ModuleLink>, links: seq<LinkData>, nodes: seq<ModuleNode>): seq<ModuleLink>
    requires |created| == |links|
  {
    LinksFromBefore(n, created, links, |links|, nodes)
  }

  /** The link objects of `created` whose saved target resolves to `n`. */
  function LinksInto(n: ModuleNode, created: seq<ModuleLink>, links: seq<LinkData>, nodes: seq<ModuleNode>): seq<ModuleLink>
    requires |created| == |links|
  {
    LinksIntoBefore(n, created, links, |links|, nodes)
  }

  /** Creating one more link object leaves the links selected from the earlier ones as they were. */
  lemma {:induction false} LinksBeforeExtend(n: ModuleNode, created: seq<ModuleLink>, c: ModuleLink, links: seq<LinkData>, k: nat, nodes: seq<ModuleNode>)
    requires k <= |created| && k <= |links|
    ensures LinksFromBefore(n, created + [c], links, k, nodes) == LinksFromBefore(n, created, links, k, nodes)
    ensures LinksIntoBefore(n, created + [c], links, k, nodes) == LinksIntoBefore(n, created, links, k, nodes)
  {
    if k > 0 {
      LinksBeforeExtend(n, created, c, links, k - 1, nodes);
      assert (created + [c])[k - 1] == created[k - 1];
    }
  }

  /**
   * Loading keeps predecessors and incoming links in step: after any number `k`
   * of links, the i-th predecessor they give `n` is the start node of the i-th
   * link they add into `n`.
   */
  lemma {:induction false} PredecessorsMatchIncomingLinks(n: ModuleNode, created: seq<ModuleLink>, links: seq<LinkData>, k: nat, nodes: seq<ModuleNode>)
    requires k <= |created| && LinksFit(nodes, links) && JoinsFirst(created, links, nodes)
    ensures var sources, into := SourcesBefore(n, links, k, nodes), LinksIntoBefore(n, created, links, k, nodes);
      |sources| == |into| && forall i :: 0 <= i < |sources| ==> sources[i] == into[i].startNode
  {
    if k > 0 {
      PredecessorsMatchIncomingLinks(n, created, links, k - 1, nodes);
      assert created[k - 1].Joins(links[k - 1], nodes) && LinkFits(nodes, links[k - 1]);
    }
  }

  /**
   * Predecessor order is link order, and circle indices play no part: two link
   * lists that name the same nodes in the same order give the same predecessors.
   */
  lemma {:induction false} SourcesIgnoreCircles(n: ModuleNode, links1: seq<LinkData>, links2: seq<LinkData>, k: nat, nodes: seq<ModuleNode>)
    requires k <= |links1| && k <= |links2|
    requires forall j :: 0 <= j < k ==>
      links1[j].source.varName == links2[j].source.varName && links1[j].target.varName == links2[j].target.varName
    ensures SourcesBefore(n, links1, k, nodes) == SourcesBefore(n, links2, k, nodes)
  {
    if k > 0 {
      SourcesIgnoreCircles(n, links1, links2, k - 1, nodes);
    }
  }

  /** Connecting circle 1 before circle 0 puts the first link's source first. */
  lemma PortOrderIgnored(nodes: seq<ModuleNode>, a: string, b: string, c: string)
    requires Resolve(nodes, a) != null && Resolve(nodes, b) != null && Resolve(nodes, c) != null
    ensures var links := [LinkData(Endpoint(a, 0), Endpoint(c, 1)), LinkData(Endpoint(b, 0), Endpoint(c, 0))];
      SourcesInto(Resolve(nodes, c), links, nodes) == [Resolve(nodes, a), Resolve(nodes, b)]
  {
    var links := [LinkData(Endpoint(a, 0), Endpoint(c, 1)), LinkData(Endpoint(b, 0), Endpoint(c, 0))];
    assert SourcesBefore(Resolve(nodes, c), links, 1, nodes) == [Resolve(nodes, a)];
  }

  // ---------------------------------------------------------------------------

  class ModuleLink {
    var startNode: ModuleNode?
    var endNode: ModuleNode?
    var startCircle: Option<int>
    var endCircle: Option<int>

    constructor ()
      ensures startNode == null && endNode == null && startCircle == None && endCircle == None
    {
      startNode := null;
      endNode := null;
      startCircle := None;
      endCircle := None;
    }

    method SetLinkEndpoints(startNode: ModuleNode?, endNode: ModuleNode?, startCircle: Option<int>, endCircle: Option<int>)
      modifies this
      ensures this.startNode == startNode && this.endNode == endNode
      ensures this.startCircle == startCircle && this.endCircle == endCircle
    {
      this.startNode := startNode;
      this.endNode := endNode;
      this.startCircle := startCircle;
      this.endCircle := endCircle;
    }

    /** This link object joins the resolved ends of the saved link `link`, at its circles. */
    predicate Joins(link: LinkData, nodes: seq<ModuleNode>)
      reads this
    {
      && startNode == Resolve(nodes, link.source.varName)
      && endNode == Resolve(nodes, link.target.varName)
      && startCircle == Some(link.source.circleIndex)
      && endCircle == Some(link.target.circleIndex)
    }
  }

  /** The link objects `created` join the first `|created|` saved `links`, one for one. */
  predicate JoinsFirst(created: seq<ModuleLink>, links: seq<LinkData>, nodes: seq<ModuleNode>)
    reads created
  {
    |created| <= |links| && forall j :: 0 <= j < |created| ==> created[j].Joins(links[j], nodes)
  }

  lemma JoinsFirstSnoc(created: seq<ModuleLink>, c: ModuleLink, links: seq<LinkData>, nodes: seq<ModuleNode>)
    requires JoinsFirst(created, links, nodes) && |created| < |links| && c.Joins(links[|created|], nodes)
    ensures JoinsFirst(created + [c], links, nodes)
  {
    forall j | 0 <= j < |created| + 1
      ensures (created + [c])[j].Joins(links[j], nodes)
    {
    }
  }

  class ModuleNode {
    const drawingBoard: DrawingBoard
    const nodeType: string
    const varName: string
    const nIn: int
    const nOut: int
    /** The variable the generated code binds this node's value to, fixed at creation. */
    const outVarName: string := OutVarName(varName, nodeType)

    var nextNodes: seq<ModuleNode>
    var prevNodes: seq<ModuleNode>
    var inLinks: seq<ModuleLink>
    var outLinks: seq<ModuleLink>
    /** Set by the first evaluation, so that later ones reuse `outVarName`. */
    var evaluated: bool

    /** A new node starts unevaluated and unconnected, and boundary nodes register with the board. */
    constructor (nodeType: string, varName: string, nIn: int, nOut: int, drawingBoard: DrawingBoard)
      modifies drawingBoard`inputModuleNodes, drawingBoard`outputModuleNodes
      ensures this.nodeType == nodeType && this.varName == varName
      ensures this.nIn == nIn && this.nOut == nOut && this.drawingBoard == drawingBoard
      ensures !evaluated && prevNodes == [] && nextNodes == [] && inLinks == [] && outLinks == []
      ensures drawingBoard.inputModuleNodes
           == old(drawingBoard.inputModuleNodes) + (if nodeType == "Input" then [this] else [])
      ensures drawingBoard.outputModuleNodes
           == old(drawingBoard.outputModuleNodes) + (if nodeType == "Output" then [this] else [])
    {
      this.nIn := nIn;
      this.nOut := nOut;
      this.nodeType := nodeType;
      this.varName := varName;
      this.drawingBoard := drawingBoard;
      prevNodes := [];
      nextNodes := [];
      inLinks := [];
      outLinks := [];
      evaluated := false;
      new;
      if nodeType == "Input" {
        drawingBoard.inputModuleNodes := drawingBoard.inputModuleNodes + [this];
      } else if nodeType == "Output" {
        drawingBoard.outputModuleNodes := drawingBoard.outputModuleNodes + [this];
      }
    }

    /** This node was made from `d` on `board`. */
    predicate Describes(d: NodeData, board: DrawingBoard)
    {
      && nodeType == d.nodeType && varName == d.varName && nIn == d.nIn && nOut == d.nOut
      && drawingBoard == board
    }

    /** The state a node is created in: unevaluated, with no neighbours and no links. */
    predicate Unconnected()
      reads this
    {
      !evaluated && prevNodes == [] && nextNodes == [] && inLinks == [] && outLinks == []
    }

    /**
     * evalForCodegen: a memo hit returns the output variable; otherwise the node
     * is marked evaluated and rendered from its predecessors' output names,
     * which are read, not evaluated.
     */
    method EvalForCodegen() returns (r: Option<string>)
      modifies this`evaluated
      ensures evaluated
      ensures old(evaluated) ==> r == Some(outVarName)
      ensures !old(evaluated) ==> r == Expression(nodeType, varName, Arguments(prevNodes))
    {
      if evaluated {
        return Some(outVarName);
      } else {
        evaluated := true;
        var outVarNames := Join(OutVarNames(prevNodes), ", ");
        if nodeType in LearnableLayerTypes {
          return Some("self." + varName + "(" + outVarNames + ")");
        } else if nodeType in NonLearnableLayerTypes {
          return Some("F." + varName + "(" + outVarNames + ")");
        } else if nodeType in FunctionalLayer {
          var snake := CamelToSnake(nodeType);
          return Some("torch." + snake + "(" + outVarNames + ")");
        }
        return None;
      }
    }

    /**
     * Clicking one of this node's output circles: any previous connection state
     * is cleared and a new connection starts here, with a preview line.
     */
    method OnOutCircleClick(circleIndex: int)
      modifies drawingBoard
      ensures drawingBoard.connectingMode
      ensures drawingBoard.connectingModeStartNode == this && drawingBoard.connectingModeStartCircle == Some(circleIndex)
      ensures drawingBoard.connectingModeEndNode == null && drawingBoard.connectingModeEndCircle == None
      ensures drawingBoard.hasConnectingLine
      ensures drawingBoard.ConnectingConsistent()
      ensures drawingBoard.moduleNodes == old(drawingBoard.moduleNodes)
      ensures drawingBoard.inputModuleNodes == old(drawingBoard.inputModuleNodes)
      ensures drawingBoard.outputModuleNodes == old(drawingBoard.outputModuleNodes)
      ensures drawingBoard.graphData == old(drawingBoard.graphData)
    {
      drawingBoard.UnfocusAll();
      drawingBoard.connectingMode := true;
      drawingBoard.connectingModeStartNode := this;
      drawingBoard.hasConnectingLine := true;
      drawingBoard.connectingModeStartCircle := Some(circleIndex);
    }

    /**
     * Clicking one of this node's input circles while connecting: a link from
     * the start node to this one is committed unless the start node is this
     * node; either way the connection state is cleared. Outside connecting
     * mode nothing happens.
     */
    method OnInCircleClick(circleIndex: int) returns (link: ModuleLink?)
      requires drawingBoard.ConnectingConsistent()
      modifies drawingBoard, this`prevNodes, this`inLinks, drawingBoard.connectingModeStartNode
      ensures drawingBoard.ConnectingConsistent()
      ensures drawingBoard.moduleNodes == old(drawingBoard.moduleNodes)
      ensures drawingBoard.inputModuleNodes == old(drawingBoard.inputModuleNodes)
      ensures drawingBoard.outputModuleNodes == old(drawingBoard.outputModuleNodes)
      ensures drawingBoard.graphData == old(drawingBoard.graphData)
      ensures !old(drawingBoard.connectingMode) ==>
        link == null && old(drawingBoard.connectingModeStartNode) == null && unchanged(drawingBoard, this)
      ensures old(drawingBoard.connectingMode) && old(drawingBoard.connectingModeStartNode) == this ==>
        link == null && drawingBoard.Unfocused() && unchanged(this)
      ensures old(drawingBoard.connectingMode) && old(drawingBoard.connectingModeStartNode) != this ==>
        var start := old(drawingBoard.connectingModeStartNode);
        && link != null && fresh(link) && drawingBoard.Unfocused()
        && link.startNode == start && link.endNode == this
        && link.startCircle == old(drawingBoard.connectingModeStartCircle) && link.endCircle == Some(circleIndex)
        && start.outLinks == old(start.outLinks) + [link]
        && inLinks == old(inLinks) + [link]
        && prevNodes == old(prevNodes) + [start]
        && start.prevNodes == old(start.prevNodes) && start.inLinks == old(start.inLinks)
        && start.evaluated == old(start.evaluated) && evaluated == old(evaluated)
        && start.nextNodes == old(start.nextNodes) && nextNodes == old(nextNodes)
    {
      link := null;
      if drawingBoard.connectingMode {
        if drawingBoard.connectingModeStartNode != this {
          var start := drawingBoard.connectingModeStartNode;
          drawingBoard.connectingModeEndNode := this;
          drawingBoard.connectingModeEndCircle := Some(circleIndex);
          link := new ModuleLink();
          link.SetLinkEndpoints(start, drawingBoard.connectingModeEndNode,
            drawingBoard.connectingModeStartCircle, drawingBoard.connectingModeEndCircle);
          start.outLinks := start.outLinks + [link];
          inLinks := inLinks + [link];
          prevNodes := prevNodes + [start];
        } else {
          drawingBoard.hasConnectingLine := false;
        }
        drawingBoard.UnfocusAll();
      }
    }
  }

  class DrawingBoard {
    var moduleNodes: seq<ModuleNode>
    var inputModuleNodes: seq<ModuleNode>
    var outputModuleNodes: seq<ModuleNode>
    var connectingMode: bool
    var connectingModeStartNode: ModuleNode?
    var connectingModeEndNode: ModuleNode?
    var connectingModeStartCircle: Option<int>
    var connectingModeEndCircle: Option<int>
    /** Whether the preview line of a connection being drawn exists. */
    var hasConnectingLine: bool
    var graphData: Option<GraphData>

    /** A connection is being drawn exactly when it has a start node. */
    predicate ConnectingConsistent()
      reads this
    {
      connectingMode <==> connectingModeStartNode != null
    }

    /** No connection is being drawn. */
    predicate Unfocused()
      reads this
    {
      && !connectingMode
      && connectingModeStartNode == null && connectingModeEndNode == null
      && connectingModeStartCircle == None && connectingModeEndCircle == None
      && !hasConnectingLine
    }

    constructor ()
      ensures moduleNodes == [] && inputModuleNodes == [] && outputModuleNodes == []
      ensures Unfocused() && graphData == None
    {
      moduleNodes := [];
      connectingMode := false;
      connectingModeStartNode := null;
      connectingModeEndNode := null;
      connectingModeStartCircle := None;
      connectingModeEndCircle := None;
      outputModuleNodes := [];
      inputModuleNodes := [];
      hasConnectingLine := false;
      graphData := None;
    }

    /** Ends any connection being drawn; the node lists are untouched. */
    method UnfocusAll()
      modifies this`connectingMode, this`connectingModeStartNode, this`connectingModeEndNode,
        this`connectingModeStartCircle, this`connectingModeEndCircle, this`hasConnectingLine
      ensures Unfocused()
    {
      connectingMode := false;
      connectingModeStartNode := null;
      connectingModeEndNode := null;
      connectingModeStartCircle := None;
      connectingModeEndCircle := None;
      hasConnectingLine := false;
    }

    /** Creates one node and appends it to the node list. */
    method AddModuleNode(nodeType: string, varName: string, nIn: int, nOut: int)
      modifies this`moduleNodes, this`inputModuleNodes, this`outputModuleNodes
      ensures |moduleNodes| == |old(moduleNodes)| + 1
      ensures moduleNodes == old(moduleNodes) + [moduleNodes[|old(moduleNodes)|]]
      ensures var n := moduleNodes[|old(moduleNodes)|];
        && fresh(n) && n.Describes(NodeData(nodeType, varName, nIn, nOut), this) && n.Unconnected()
        && inputModuleNodes == old(inputModuleNodes) + (if nodeType == "Input" then [n] else [])
        && outputModuleNodes == old(outputModuleNodes) + (if nodeType == "Output" then [n] else [])
    {
      var moduleNode := new ModuleNode(nodeType, varName, nIn, nOut, this);
      moduleNodes := moduleNodes + [moduleNode];
    }

    /** The scan over all nodes that finds a saved link's two ends: the last match wins. */
    method ResolveLink(link: LinkData) returns (source: ModuleNode?, target: ModuleNode?)
      ensures source == Resolve(moduleNodes, link.source.varName)
      ensures target == Resolve(moduleNodes, link.target.varName)
    {
      source, target := null, null;
      for i := 0 to |moduleNodes|
        invariant source == Resolve(moduleNodes[..i], link.source.varName)
        invariant target == Resolve(moduleNodes[..i], link.target.varName)
      {
        assert moduleNodes[..i + 1][..i] == moduleNodes[..i];
        if link.source.varName == moduleNodes[i].varName {
          source := moduleNodes[i];
        }
        if link.target.varName == moduleNodes[i].varName {
          target := moduleNodes[i];
        }
      }
      assert moduleNodes[..|moduleNodes|] == moduleNodes;
    }

    /**
     * Loads one saved link: the source becomes the target's last predecessor,
     * and a new link object is appended to the source's outgoing and the
     * target's incoming links.
     */
    method LoadLink(link: LinkData) returns (ghost source: ModuleNode, ghost target: ModuleNode, ghost created: ModuleLink)
      requires LinkFits(moduleNodes, link)
      modifies moduleNodes`prevNodes, moduleNodes`outLinks, moduleNodes`inLinks
      ensures source == Resolve(moduleNodes, link.source.varName) && target == Resolve(moduleNodes, link.target.varName)
      ensures fresh(created)
      ensures created.startNode == source && created.endNode == target
      ensures created.startCircle == Some(link.source.circleIndex) && created.endCircle == Some(link.target.circleIndex)
      ensures forall n :: n in moduleNodes ==>
        && n.prevNodes == old(n.prevNodes) + (if n == target then [source] else [])
        && n.outLinks == old(n.outLinks) + (if n == source then [created] else [])
        && n.inLinks == old(n.inLinks) + (if n == target then [created] else [])
    {
      ResolveFinds(moduleNodes, link.source.varName);
      ResolveFinds(moduleNodes, link.target.varName);
      var start, end := ResolveLink(link);
      end.prevNodes := end.prevNodes + [start];
      var moduleLink := new ModuleLink();
      moduleLink.SetLinkEndpoints(start, end, Some(link.source.circleIndex), Some(link.target.circleIndex));
      start.outLinks := start.outLinks + [moduleLink];
      end.inLinks := end.inLinks + [moduleLink];
      source, target, created := start, end, moduleLink;
    }

    /** Creates the saved nodes in order, as `AddModuleNode` does for each; `added` are the new nodes. */
    method AddNodes(nodes: seq<NodeData>) returns (ghost added: seq<ModuleNode>)
      modifies this`moduleNodes, this`inputModuleNodes, this`outputModuleNodes
      ensures moduleNodes == old(moduleNodes) + added && |added| == |nodes|
      ensures forall i :: 0 <= i < |nodes| ==> added[i].Describes(nodes[i], this)
      ensures fresh(added) && forall n :: n in added ==> n.Unconnected()
      ensures inputModuleNodes == old(inputModuleNodes) + OfType(added, "Input")
      ensures outputModuleNodes == old(outputModuleNodes) + OfType(added, "Output")
    {
      added := [];
      for i := 0 to |nodes|
        invariant moduleNodes == old(moduleNodes) + added && |added| == i
        invariant forall j :: 0 <= j < i ==> added[j].Describes(nodes[j], this)
        invariant fresh(added) && forall n :: n in added ==> n.Unconnected()
        invariant inputModuleNodes == old(inputModuleNodes) + OfType(added, "Input")
        invariant outputModuleNodes == old(outputModuleNodes) + OfType(added, "Output")
      {
        label before:
        AddModuleNode(nodes[i].nodeType, nodes[i].varName, nodes[i].nIn, nodes[i].nOut);
        ghost var n := moduleNodes[|old@before(moduleNodes)|];
        assert nodes[i] == NodeData(nodes[i].nodeType, nodes[i].varName, nodes[i].nIn, nodes[i].nOut);
        assert n.Describes(nodes[i], this);
        OfTypeSnoc(added, n, "Input");
        OfTypeSnoc(added, n, "Output");
        AppendAssoc(old(moduleNodes), added, [n]);
        AppendAssoc(old(inputModuleNodes), OfType(added, "Input"), if n.nodeType == "Input" then [n] else []);
        AppendAssoc(old(outputModuleNodes), OfType(added, "Output"), if n.nodeType == "Output" then [n] else []);
        added := added + [n];
      }
    }

    /** Loads the saved links in order, as `LoadLink` does for each. */
    method LoadLinks(links: seq<LinkData>) returns (ghost created: seq<ModuleLink>)
      requires LinksFit(moduleNodes, links)
      modifies moduleNodes`prevNodes, moduleNodes`outLinks, moduleNodes`inLinks
      ensures |created| == |links| && fresh(created) && JoinsFirst(created, links, moduleNodes)
      ensures forall n :: n in moduleNodes ==> n.prevNodes == old(n.prevNodes) + SourcesInto(n, links, moduleNodes)
      ensures forall n :: n in moduleNodes ==> n.outLinks == old(n.outLinks) + LinksFrom(n, created, links, moduleNodes)
      ensures forall n :: n in moduleNodes ==> n.inLinks == old(n.inLinks) + LinksInto(n, created, links, moduleNodes)
    {
      var nodes := moduleNodes;
      created := [];
      for k := 0 to |links|
        invariant |created| == k && fresh(created) && JoinsFirst(created, links, nodes)
        invariant forall n :: n in nodes ==>
          && n.prevNodes == old(n.prevNodes) + SourcesBefore(n, links, k, nodes)
          && n.outLinks == old(n.outLinks) + LinksFromBefore(n, created, links, k, nodes)
          && n.inLinks == old(n.inLinks) + LinksIntoBefore(n, created, links, k, nodes)
      {
        label step:
        ghost var source, target, c := LoadLink(links[k]);
        assert unchanged@step(created);
        assert JoinsFirst(created, links, nodes) && c.Joins(links[k], nodes);
        forall n | n in nodes
          ensures n.prevNodes == old(n.prevNodes) + SourcesBefore(n, links, k + 1, nodes)
          ensures n.outLinks == old(n.outLinks) + LinksFromBefore(n, created + [c], links, k + 1, nodes)
          ensures n.inLinks == old(n.inLinks) + LinksIntoBefore(n, created + [c], links, k + 1, nodes)
        {
          LinksBeforeExtend(n, created, c, links, k, nodes);
          AppendAssoc(old(n.prevNodes), SourcesBefore(n, links, k, nodes), if n == target then [source] else []);
          AppendAssoc(old(n.outLinks), LinksFromBefore(n, created, links, k, nodes), if n == source then [c] else []);
          AppendAssoc(old(n.inLinks), LinksIntoBefore(n, created, links, k, nodes), if n == target then [c] else []);
        }
        JoinsFirstSnoc(created, c, links, nodes);
        created := created + [c];
      }
    }

    /**
     * Records the saved graph, creates its nodes (`added`), then connects
     * them: the source of every saved link becomes a predecessor of its
     * target, in link order, and each link object (`created`) joins both
     * ends' link lists.
     */
    method LoadGraphData(data: GraphData) returns (ghost added: seq<ModuleNode>, ghost created: seq<ModuleLink>)
      requires DataLinksFit(Shapes(moduleNodes) + data.nodes, data.links)
      modifies this`graphData, this`moduleNodes, this`inputModuleNodes, this`outputModuleNodes, moduleNodes
      ensures graphData == Some(data)
      ensures moduleNodes == old(moduleNodes) + added && |added| == |data.nodes|
      ensures forall i :: 0 <= i < |data.nodes| ==> added[i].Describes(data.nodes[i], this)
      ensures inputModuleNodes == old(inputModuleNodes) + OfType(added, "Input")
      ensures outputModuleNodes == old(outputModuleNodes) + OfType(added, "Output")
      ensures |created| == |data.links| && fresh(created) && JoinsFirst(created, data.links, moduleNodes)
      ensures forall n :: n in old(moduleNodes) ==>
        && n.prevNodes == old(n.prevNodes) + SourcesInto(n, data.links, moduleNodes)
        && n.outLinks == old(n.outLinks) + LinksFrom(n, created, data.links, moduleNodes)
        && n.inLinks == old(n.inLinks) + LinksInto(n, created, data.links, moduleNodes)
        && n.evaluated == old(n.evaluated) && n.nextNodes == old(n.nextNodes)
      ensures fresh(added)
      ensures forall n :: n in added ==>
        && n.prevNodes == SourcesInto(n, data.links, moduleNodes)
        && n.outLinks == LinksFrom(n, created, data.links, moduleNodes)
        && n.inLinks == LinksInto(n, created, data.links, moduleNodes)
        && !n.evaluated && n.nextNodes == []
    {
      graphData := Some(data);
      added := AddNodes(data.nodes);
      LinksFitAfterAdding(old(moduleNodes), added, data, this);
      label nodesAdded:
      created := LoadLinks(data.links);
      assert moduleNodes == old@nodesAdded(moduleNodes);
      forall n | n in old(moduleNodes)
        ensures n.prevNodes == old(n.prevNodes) + SourcesInto(n, data.links, moduleNodes)
        ensures n.outLinks == old(n.outLinks) + LinksFrom(n, created, data.links, moduleNodes)
        ensures n.inLinks == old(n.inLinks) + LinksInto(n, created, data.links, moduleNodes)
        ensures n.evaluated == old(n.evaluated) && n.nextNodes == old(n.nextNodes)
      {
        assert n in moduleNodes;
        assert old@nodesAdded(n.prevNodes) == old(n.prevNodes);
        assert old@nodesAdded(n.outLinks) == old(n.outLinks);
        assert old@nodesAdded(n.inLinks) == old(n.inLinks);
      }
      forall n | n in added
        ensures n.prevNodes == SourcesInto(n, data.links, moduleNodes)
        ensures n.outLinks == LinksFrom(n, created, data.links, moduleNodes)
        ensures n.inLinks == LinksInto(n, created, data.links, moduleNodes)
        ensures !n.evaluated && n.nextNodes == []
      {
        assert n in moduleNodes && old@nodesAdded(n.Unconnected());
        assert [] + SourcesInto(n, data.links, moduleNodes) == SourcesInto(n, data.links, moduleNodes);
        assert [] + LinksFrom(n, created, data.links, moduleNodes) == LinksFrom(n, created, data.links, moduleNodes);
        assert [] + LinksInto(n, created, data.links, moduleNodes) == LinksInto(n, created, data.links, moduleNodes);
      }
    }
  }

  // ---------------------------------------------------------------------------

  /**
   * A board with an input `x` and a convolution `conv_1`: clicking an output
   * circle of `x` and then an input circle of `conv_1` connects them, and
   * evaluating `conv_1` then calls the learnable layer on `x`.
   */
  method ConnectThenEvaluate() returns (expression: Option<string>)
    ensures expression == Some("self.conv_1(x)")
  {
    var board := new DrawingBoard();
    board.AddModuleNode("Input", "x", 0, 1);
    board.AddModuleNode("Conv2d", "conv_1", 1, 1);
    var x, conv := board.moduleNodes[0], board.moduleNodes[1];
    x.OnOutCircleClick(0);
    var link := conv.OnInCircleClick(0);
    assert conv.prevNodes == [x];
    assert !conv.evaluated && conv.varName == "conv_1";
    assert Arguments(conv.prevNodes) == "x" by {
      assert OutVarNames([x]) == [x.outVarName];
    }
    expression := conv.EvalForCodegen();
    assert "Conv2d" in LearnableLayerTypes by {
      assert LearnableLayerTypes[0] == "Conv2d";
    }
    ghost var spelled := "self." + "conv_1" + "(" + "x" + ")";
    assert expression == Some(spelled);
    assert spelled == "self.conv_1(x)";
  }
}
