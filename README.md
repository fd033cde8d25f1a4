# nnsketch code generation, modelled in Dafny

nnsketch is a browser editor for neural-network sketches. The user places
layer nodes on a drawing board, wires output circles to input circles, and
the editor generates PyTorch source from the graph. This project models the
part of the editor that carries that path:

- **Graph** (`graph.dfy`): the `ModuleNode`, `ModuleLink` and `DrawingBoard`
  classes.
  - A node records its predecessors and its incoming and outgoing links.
  - Clicking an output circle and then an input circle commits a link, unless
    it would join a node to itself.
  - `loadGraphData` creates saved nodes in order. It then resolves every saved
    link by name (the last node with that name wins) and connects the two ends.
  - `unfocusAll` ends any connection being drawn.
- **Node evaluation** (`node_types.dfy`):
  - the three layer-type catalogs;
  - the camelCase to snake_case conversion;
  - the output variable name;
  - the expression template a node evaluates to.
- **Code generation** (`codegen.dfy`): the syntax-tree datatype, the record
  factories, and the indentation-aware printer.
  - The printer appends to one output string.
  - Every time it prints a method, it puts another receiver parameter `self` in
    front of that method's parameters.
- **Shared helpers** (`strings.dfy`, `wrappers.dfy`): the JavaScript `join`, the
  indent and newline helpers, and the optional value that stands for
  `undefined`/`null`.

The imperative code keeps its imperative form:

- `camelToSnake`, the printer and its loops are methods with loop invariants,
  proved against specification functions (`Snake`, `Text`, `Lines`, `Join`).
- The graph is a set of classes whose methods change exactly the fields the
  TypeScript changes.
- Lemmas then state what the specification functions promise: lengths, shapes,
  order, and when printing twice gives the same text.

Three behaviours of the code are worth stating plainly. For the first two,
comments in the code suggest a different reading:

- **Evaluation does not recurse.** The comment at
  `webui/src/ts/ModuleNode.ts:112-114` says the `evaluated` flag keeps a node
  from being evaluated twice. But evaluating a node only reads its
  predecessors' output variable names; it never evaluates the predecessors.
  Nothing in the modelled code clears the flag.
- **The receiver is injected on every print.** The comment at
  `webui/src/ts/Codegen.ts:104` says the first parameter is assumed to be
  `self`. But printing a method puts a new `self` in front of its parameters
  each time, even when one is already there. Printing the same tree twice is
  therefore byte-identical only when the tree holds no method
  (`Codegen.ReprintIdenticalIffNoMethods`).
- **A type in no catalog is not an error.** Such a node evaluates to no
  expression (`None`, the TypeScript `undefined`) and is still marked
  evaluated.

## Model

| member | source | states |
|---|---|---|
| NodeTypes.CategoryOf | webui/src/ts/ModuleNode.ts:139-146 | a type is Learnable, NonLearnable or Functional exactly when it is listed in that catalog, and Unclassified exactly when it is in none |
| NodeTypes.CatalogsDisjoint | webui/src/ts/ModuleNode.ts:4-30 | no type is listed in two of the three catalogs, so at most one rendering branch applies |
| NodeTypes.BoundaryTypesAreUnclassified | webui/src/ts/ModuleNode.ts:137-147 | `Input` and `Output` are in no catalog, so their nodes evaluate to no expression |
| NodeTypes.Snake | webui/src/ts/ModuleNode.ts:32-43 | the conversion's result, built one position at a time: for each character, an optional `_` (at a position after the first whose character is its own upper-case form), then the lower-cased character. It is the definition `CamelToSnake` is proved against |
| NodeTypes.CamelToSnake | webui/src/ts/ModuleNode.ts:32-43 | the character loop produces `Snake(str)`: each character lower-cased, with `_` before every position after the first whose character equals its own upper-case form |
| NodeTypes.SnakeLength | webui/src/ts/ModuleNode.ts:32-43 | the output is as long as the input plus one for every such break position |
| NodeTypes.SnakeHasNoCapitals | webui/src/ts/ModuleNode.ts:40 | no ASCII capital letter is left in the output |
| NodeTypes.SnakeFromFront | webui/src/ts/ModuleNode.ts:32-43 | read from the front, the output is the first character lower-cased followed by the converted rest, in which every upper-case-form character gets a `_` |
| NodeTypes.SnakeTailAppend | webui/src/ts/ModuleNode.ts:34-41 | converting the rest of a string piece by piece gives the same text as converting it in one go |
| NodeTypes.SnakeAppend | webui/src/ts/ModuleNode.ts:32-43 | converting `s + t` converts `s`, then continues on `t` with a break before each of its upper-case-form characters |
| NodeTypes.SnakeOfAdd | webui/src/ts/ModuleNode.ts:32-43 | `Add` converts to `add` |
| NodeTypes.SnakeOfMultiply | webui/src/ts/ModuleNode.ts:32-43 | `Multiply` converts to `multiply` |
| NodeTypes.SnakeTailOfAdd | webui/src/ts/ModuleNode.ts:35-38 | one instance: `Add`, converted at a position after the first, gives `_add` |
| NodeTypes.SnakeOfMultiplyAdd | webui/src/ts/ModuleNode.ts:32-43 | `MultiplyAdd` converts to `multiply_add` |
| NodeTypes.SnakeOfConv2d | webui/src/ts/ModuleNode.ts:35 | a digit equals its own upper-case form, so `Conv2d` converts to `conv_2d` |
| NodeTypes.OutVarName | webui/src/ts/ModuleNode.ts:44-50 | the output variable extends the node's name, equals it exactly when the type is `Input` or `Output`, and is otherwise the name followed by `_out` |
| NodeTypes.Expression | webui/src/ts/ModuleNode.ts:139-147 | there is an expression exactly when the type is in a catalog: `self.<var>(<args>)` for learnable, `F.<var>(<args>)` for non-learnable, `torch.<snake type>(<args>)` for functional types |
| NodeTypes.ExpressionDeterminesArguments | webui/src/ts/ModuleNode.ts:138-146 | two evaluations of the same node type and name that give the same expression had the same argument list |
| NodeTypes.FunctionalExpressions | webui/src/ts/ModuleNode.ts:144-146 | `Add` and `Multiply` nodes render as `torch.add(...)` and `torch.multiply(...)` |
| Strings.Join | webui/src/ts/ModuleNode.ts:138 | JavaScript's `Array.prototype.join`: the items in order, with the separator between each adjacent pair and nowhere else. It is the definition the printer's separator loops are proved against |
| Strings.JoinSnoc | webui/src/ts/Codegen.ts:150-155 | joining one more item appends the separator and the item, so no separator trails |
| Strings.JoinPrefixStep | webui/src/ts/Codegen.ts:164-169 | the printer's loop writes each item and then a separator after every item but the last. Read with the pending separator moved in front of the next item, one step extends the join of the items so far by one item |
| Strings.JoinLength | webui/src/ts/ModuleNode.ts:138 | a join is as long as its items plus one separator fewer than there are items |
| Strings.Indentation | webui/src/ts/Codegen.ts:81-84 | the indent string the loop builds for `level` levels, one `"    "` per level. It is the definition `IndentString` is proved against |
| Strings.IndentationIsFourSpacesPerLevel | webui/src/ts/Codegen.ts:81-84 | an indent of `level` levels is exactly `4 * level` spaces |
| Strings.Newlines | webui/src/ts/Codegen.ts:189-193 | the text the `NewLine` loop appends for a count `n`, one `\n` per iteration. It is the definition `EmitNewLines` is proved against |
| Strings.NewlinesShape | webui/src/ts/Codegen.ts:189-193 | `n` newline characters and nothing else, none when `n` is not positive |
| Codegen.Text | webui/src/ts/Codegen.ts:85-196 | the text each branch of `generatePythonCodeUtil` appends for a tree at an indent level; it is the specification the printer methods are proved against |
| Codegen.AfterPrint | webui/src/ts/Codegen.ts:105 | the tree as printing leaves it: every method visited has one more `self` parameter in front; nothing else changes |
| Codegen.CreateVariableDeclaration | webui/src/ts/Codegen.ts:1-12 | the declaration prints as `<indent><name> = <value>` and a line break |
| Codegen.CreateIdentifier | webui/src/ts/Codegen.ts:14-20 | an identifier prints as its bare name, without indent, whatever its type |
| Codegen.CreateReturnStatement | webui/src/ts/Codegen.ts:22-27 | a return prints `<indent>return ` and its values joined by `", "`, with no line break |
| Codegen.CreateClassMethodDeclaration | webui/src/ts/Codegen.ts:29-42 | a method prints its `def` line, then its body one level deeper, or exactly one `pass` line one level deeper when the body is empty |
| Codegen.CreateImportDeclaration | webui/src/ts/Codegen.ts:44-59 | the three import forms: `from <src> import a, b`, else `import <src> as <alias>`, else `import <src>` |
| Codegen.CreateNewLine | webui/src/ts/Codegen.ts:61-66 | the node prints exactly `n` line breaks (none for `n <= 0`) and no indent |
| Codegen.CreatePassStatement | webui/src/ts/Codegen.ts:68-72 | `pass` on a line of its own at the current indent |
| Codegen.IndentString | webui/src/ts/Codegen.ts:81-84 | the indent loop builds four spaces per level |
| Codegen.EmitJoined | webui/src/ts/Codegen.ts:150-155 | the loop appends the items joined by `", "` |
| Codegen.EmitParams | webui/src/ts/Codegen.ts:106-119 | the loop appends the parameter list: the receiver bare, a typed parameter as `name: type`, an untyped one as `name: Any`, separated by `", "` |
| Codegen.EmitNewLines | webui/src/ts/Codegen.ts:189-193 | the loop appends `n` line breaks |
| Codegen.EmitAll | webui/src/ts/Codegen.ts:87-100 | the children are printed in order, each followed by the trailer, and each is left as printing leaves it |
| Codegen.Emit | webui/src/ts/Codegen.ts:77-197 | printing appends exactly `Text(tree, indent)` to the output and leaves the tree as `AfterPrint(tree)` |
| Codegen.EmitStatement | webui/src/ts/Codegen.ts:137-196 | variable declarations, literals, identifiers, returns, line breaks, `pass` and unknown tags append their text; an unknown tag appends nothing |
| Codegen.EmitImport | webui/src/ts/Codegen.ts:157-188 | the import branch appends one of its three forms |
| Codegen.EmitClass | webui/src/ts/Codegen.ts:91-101 | `class <name>(<superclass or nothing>):`, then every member one level deeper, each followed by one more line break |
| Codegen.EmitMethodHeader | webui/src/ts/Codegen.ts:103-124 | the `def` line ends `) -> <type>:` or `) -> None:` when there is no return type |
| Codegen.EmitMethod | webui/src/ts/Codegen.ts:102-131 | a method's text, and the method left with one more receiver in front of its parameters |
| Codegen.GeneratePythonCode | webui/src/ts/Codegen.ts:74-200 | the generated code is the text of the whole tree from indent level 0 |
| Codegen.ParamListWithSelf | webui/src/ts/Codegen.ts:105-119 | the injected receiver prints bare, ahead of the other parameters and separated from them by `", "` |
| Codegen.LinesAppend | webui/src/ts/Codegen.ts:87-89 | the text of a concatenation of children is the concatenation of their texts |
| Codegen.ProgramPrintsInOrder | webui/src/ts/Codegen.ts:86-90 | a Program prints its statements in order, at its own level |
| Codegen.BlockIsOneLevelDeeper | webui/src/ts/Codegen.ts:132-136 | a block prints as its statements would one level deeper |
| Codegen.ReprintGrowth | webui/src/ts/Codegen.ts:105 | printing a tree again prints six more characters (`self, `) for every method in it |
| Codegen.ReprintGrowthAll | webui/src/ts/Codegen.ts:87-135 | the same growth, summed over a list of children |
| Codegen.ReprintGrowthMethod | webui/src/ts/Codegen.ts:102-131 | a method grows by one receiver plus what its statements grow |
| Codegen.HeaderGrowth | webui/src/ts/Codegen.ts:103-119 | one more receiver lengthens a `def` line by exactly six characters |
| Codegen.NoMethodsUntouched | webui/src/ts/Codegen.ts:105 | printing changes a tree only through its methods: a tree with none is left as it was |
| Codegen.ReprintIdenticalIffNoMethods | webui/src/ts/Codegen.ts:105 | printing the same tree twice gives identical text if and only if the tree holds no method |
| Codegen.ReceiverAlreadyPresentPrintsTwice | webui/src/ts/Codegen.ts:105-119 | a method that already lists `self` prints `def forward(self, self) -> None:` |
| Codegen.ReturnLeavesLineOpen | webui/src/ts/Codegen.ts:148-156 | a statement after a return continues the return's line |
| Graph.OutVarNames | webui/src/ts/ModuleNode.ts:138 | the predecessors' output names, one per predecessor, in order |
| Graph.OfTypeSelects | webui/src/ts/ModuleNode.ts:117-121 | the filtered list `OfType(nodes, t)` holds exactly the nodes of `nodes` whose type is `t`. With `AddNodes`, this means a load extends each boundary list by exactly the added nodes of that list's type |
| Graph.ModuleNode.constructor | webui/src/ts/ModuleNode.ts:89-121 | a new node is unevaluated with no neighbours or links, and is appended to the board's input list if and only if it is an `Input`, and to its output list if and only if it is an `Output` |
| Graph.ModuleNode.EvalForCodegen | webui/src/ts/ModuleNode.ts:133-148 | a memo hit returns the output variable; otherwise the node is marked evaluated and the expression is built from the predecessors' output names joined by `", "`; afterwards the node is always evaluated |
| Graph.ModuleNode.OnOutCircleClick | webui/src/ts/ModuleNode.ts:287-303 | clicking an output circle clears any connection state, then starts a connection at this node and circle, with a preview line |
| Graph.ModuleNode.OnInCircleClick | webui/src/ts/ModuleNode.ts:232-269 | outside connecting mode there is no start node and neither the board nor this node changes. A self-link is rejected, and this node is left unchanged. Otherwise one new link joins the start node to this node; it is appended once to the start's outgoing links and once to this node's incoming links, and the start node is appended once to the predecessors. Both nodes' evaluation state and `nextNodes` are kept. Either way the connection state is cleared |
| Graph.ModuleLink.constructor | webui/src/ts/ModuleNode.ts:320-324 | a new link has no ends |
| Graph.ModuleLink.SetLinkEndpoints | webui/src/ts/ModuleNode.ts:326-332 | the link's two nodes and two circles are the given ones |
| Graph.DrawingBoard.constructor | webui/src/ts/DrawingBoard.ts:23-42 | a new board has no nodes, no boundary nodes, no connection being drawn and no graph data |
| Graph.DrawingBoard.UnfocusAll | webui/src/ts/DrawingBoard.ts:144-154 | connecting mode ends, the start and end nodes and circles are cleared and the preview line is gone; the node lists are untouched |
| Graph.DrawingBoard.AddModuleNode | webui/src/ts/DrawingBoard.ts:89-92 | exactly one new, unconnected node with the given type, name and port counts is appended to the node list, and to a boundary list only for its own type |
| Graph.Resolve | webui/src/ts/DrawingBoard.ts:113-122 | the node a saved name resolves to when every node is compared in turn and each match overwrites the earlier one: the last node with that name, or null. It is the definition `ResolveLink` is proved against |
| Graph.DrawingBoard.ResolveLink | webui/src/ts/DrawingBoard.ts:113-122 | the scan finds, for each end of a saved link, the last node carrying that name |
| Graph.ResolveFinds | webui/src/ts/DrawingBoard.ts:113-122 | a name resolves if and only if some node carries it, and then to a node of the list with that name |
| Graph.ResolveIsLastMatch | webui/src/ts/DrawingBoard.ts:113-122 | the node a name resolves to has no later node sharing its name |
| Graph.UniqueNameResolves | webui/src/ts/DrawingBoard.ts:113-122 | a name carried by one node only resolves to that node |
| Graph.DrawingBoard.LoadLink | webui/src/ts/DrawingBoard.ts:107-141 | one saved link whose ends resolve to nodes that have the named circles: the source becomes the target's last predecessor, and one new link, joining both ends at the saved circles, is appended to the source's outgoing and the target's incoming links; no other node changes |
| Graph.DrawingBoard.AddNodes | webui/src/ts/DrawingBoard.ts:96-105 | the saved nodes are appended, unconnected, in saved order, and the boundary lists gain the new boundary nodes in that order |
| Graph.DrawingBoard.LoadLinks | webui/src/ts/DrawingBoard.ts:107-141 | for saved links that all fit the board, after all of them, every node's predecessors are its old ones followed by the sources of the links into it in link order, and its link lists gain exactly the new links out of and into it |
| Graph.DrawingBoard.LoadGraphData | webui/src/ts/DrawingBoard.ts:94-142 | for graph data whose links fit the existing and saved nodes, the data is recorded, the nodes are created in order, then the links are connected in order; existing nodes keep their evaluation state |
| Graph.ShapesAfterAdding | webui/src/ts/DrawingBoard.ts:96-105 | once the saved nodes are created, the board's nodes are described by the old descriptions followed by the saved ones |
| Graph.ResolveMatchesShapes | webui/src/ts/DrawingBoard.ts:113-122 | resolving a name among nodes and among their descriptions finds the same node |
| Graph.LinksFitAfterAdding | webui/src/ts/DrawingBoard.ts:94-133 | a saved link that names an old or a saved node, at a circle that node has, still does so once the saved nodes are created |
| Graph.SourcesInto | webui/src/ts/DrawingBoard.ts:124 | the predecessors loading appends to a node: for each saved link in order whose target resolves to it, the node the source resolves to. `LoadLinks` states its `prevNodes` result with it |
| Graph.LinksFrom | webui/src/ts/DrawingBoard.ts:137 | the new link objects loading appends to a node's outgoing links: those, in order, whose saved source resolves to it |
| Graph.LinksInto | webui/src/ts/DrawingBoard.ts:138 | the new link objects loading appends to a node's incoming links: those, in order, whose saved target resolves to it |
| Graph.PredecessorsMatchIncomingLinks | webui/src/ts/DrawingBoard.ts:124-138 | loading adds predecessors and incoming links in step: the i-th predecessor added to a node is the start node of the i-th link added into it |
| Graph.SourcesIgnoreCircles | webui/src/ts/DrawingBoard.ts:107-124 | predecessor order depends only on the names in the link list and its order, not on circle indices |
| Graph.PortOrderIgnored | webui/src/ts/DrawingBoard.ts:107-124 | a link into circle 1 listed before a link into circle 0 still contributes the first predecessor |
| Graph.ConnectThenEvaluate | webui/src/ts/ModuleNode.ts:232-303 | on a board with input `x` and convolution `conv_1`, clicking an output circle of `x`, then an input circle of `conv_1`, then evaluating `conv_1` gives `self.conv_1(x)` |

## Left out

- Drawing is not modelled. This covers SVG shapes, styling, hover and drag handlers, `drawSVG`, `ModuleNode.unfocus` and `ModuleLink.updateLinePosition`. The throw on a missing circle while loading is the exception; it is named on the `LoadGraphData` line below.
- The model assumes the board's drawing layers `baseDrawingLayer` and `linkDrawingLayer` exist. `webui/src/ts/DrawingBoard.ts` neither declares nor sets them. If nothing outside these files sets them, two things throw:
  - Every node construction throws in `drawSVG` (`webui/src/ts/ModuleNode.ts:152`). That is after the node is pushed onto a boundary list (lines 117-121) and before `addModuleNode` pushes it onto `moduleNodes` (`webui/src/ts/DrawingBoard.ts:91`).
  - Every output-circle click throws at `webui/src/ts/ModuleNode.ts:300`. That is after connecting mode and the start node are set, and before the start circle is set.
- The board's background-click and `mousemove` handlers are UI event wiring and are not modelled.
- Geometry is not modelled: positions, sizes, `smallGridSize`, grid snapping, circle placement and `lastEventX`/`lastEventY`. It is floating-point layout.
- An SVG circle is modelled by its port index (`Option<int>`), and the board's preview line by a boolean.
- `ModuleLink` does not model the `lineSVG` field.
- A click commits a link only with the index of a circle that exists, because the click handler belongs to that circle. The click methods take the index as given.
- The board's `drawingBoardSVG`, `editorNodesSVGHolder`, `syntaxTree` and `layerTypeCounter` fields are left out. `syntaxTree` and `layerTypeCounter` are only initialised. The two SVG fields are read only by drawing calls, which are not modelled: the background and `mousemove` wiring in the constructor (`webui/src/ts/DrawingBoard.ts:25`, `:47`, `:64`) and the line created for each loaded link (`webui/src/ts/DrawingBoard.ts:127`).
- `nextNodes` is modelled, but the code never fills it: it stays empty.
- Graph.DrawingBoard.LoadGraphData: requires every saved link to name an existing or saved node, at a circle that node has (`DataLinksFit`).
  - If a link names no node, the code throws a `TypeError` at `webui/src/ts/DrawingBoard.ts:124` or `:132`.
  - If it names a circle index the node does not have, `updateLinePosition` throws (`webui/src/ts/DrawingBoard.ts:140`, `webui/src/ts/ModuleNode.ts:336`). By then that link's three appends (lines 124, 137 and 138) have already happened.
  - Either way no later link is loaded. The model does not capture the partly-loaded state such a throw leaves behind.
- Graph.DrawingBoard.LoadLinks: requires every link to fit the board (`LinksFit`). It does not model the throw described on the `LoadGraphData` line.
- Graph.DrawingBoard.LoadLink: requires the link to fit the board (`LinkFits`). It does not model the throw described on the `LoadGraphData` line.
- Graph.DrawingBoard.LoadGraphData, Graph.DrawingBoard.LoadLinks and Graph.DrawingBoard.LoadLink: the new nodes and link objects are named by ghost results. The code returns nothing.
- Graph.ModuleNode.OnInCircleClick: the `console.log` message on a rejected self-link (`webui/src/ts/ModuleNode.ts:265`) is console output and is not modelled.
- Graph.ModuleNode.OnInCircleClick: requires that connecting mode is on exactly when there is a start node (`ConnectingConsistent`). The constructor, `UnfocusAll` and `OnOutCircleClick` are the only code that sets these fields, and each keeps this true. In the code, a click in connecting mode with no start node would throw.
- NodeTypes.CamelToSnake: non-ASCII input is left out, and so are `SnakeLength` and the other `Snake` lemmas on such input.
  - `toUpperCase`/`toLowerCase` are modelled on ASCII letters only.
  - A Dafny `string` is a sequence of Unicode scalar values, while `str[i]` and `str.length` (`webui/src/ts/ModuleNode.ts:34-35`) index UTF-16 code units. For a character outside the Basic Multilingual Plane the code tests each surrogate half on its own, so `"a😀"` gives `a`, `_`, the high half, `_`, the low half, where the model gives one `_` fewer. The node types the code converts (`Add`, `Multiply`) are ASCII.
- Codegen.Emit: the tree is a value, and printing returns the tree as the `unshift` calls leave it (`AfterPrint`). Aliasing is not modelled: a `params` array shared by two method nodes, or a node reachable twice in one tree.
- Codegen.CreateImportDeclaration: drops the `loc` parameter, which the code ignores.
- The untyped syntax-tree fields are modelled as strings or optional strings: the variable `init.value`, the return arguments, `superClass`, `returnType` and `alias`. Truthiness is taken as "present and not empty". Other JavaScript values in those fields are not modelled.
- `NewLine(n)` takes an integer count; a fractional `n` is not modelled.
- `getSyntaxTreeBaseTemplate` is an unexported demo tree and is not modelled. It does not match the printer in two ways:
  - It keeps method and class names under `id.name`, while the printer reads `name`.
  - It passes an object rather than an array to `createReturnStatement`.
