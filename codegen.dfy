/**
 * The syntax tree of the generated Python module, its factory functions and
 * the indentation-aware printer that turns a tree into Python source text.
 */
module Codegen {
  import opened Wrappers
  import opened Strings

  /** A method parameter: an Identifier record with an optional type annotation. */
  datatype Param = Param(name: string, dtype: Option<string>)

  /** One variant per `type` tag the printer recognises, and one for every other tag. */
  datatype Node =
    | Program(body: seq<Node>)
    | ClassDeclaration(name: string, superClass: Option<string>, body: seq<Node>)
    | ClassMethod(name: string, params: seq<Param>, body: seq<Node>, returnType: Option<string>)
    | BlockStatement(body: seq<Node>)
    | VariableDeclaration(idName: string, initValue: string)
    | Literal(value: string)
    | Identifier(name: string, dtype: Option<string>)
    | ReturnStatement(argument: seq<string>)
    | ImportDeclaration(source: string, specifiers: seq<string>, alias: Option<string>)
    | NewLine(n: int)
    | PassStatement
    | UnknownTag(tag: string)

  /** The receiver the printer puts in front of every method's parameters. */
  const SelfParam: Param := Param("self", Some("self"))

  // ---------------------------------------------------------------------------
  // The printed form of a tree, as a specification.

  /** How one parameter prints: the receiver bare, otherwise annotated, with `Any` by default. */
  function ParamText(p: Param): string
  {
    p.name + if p.dtype == Some("self") then "" else if Truthy(p.dtype) then ": " + p.dtype.value else ": Any"
  }

  function ParamTexts(ps: seq<Param>): (r: seq<string>)
    ensures |r| == |ps|
  {
    seq(|ps|, i requires 0 <= i < |ps| => ParamText(ps[i]))
  }

  /** The parameter list between the parentheses of a `def`. */
  function ParamList(ps: seq<Param>): string
  {
    Join(ParamTexts(ps), ", ")
  }

  /** The end of a `def` line: the return annotation, `None` when none is given. */
  function ReturnAnnotation(returnType: Option<string>): string
  {
    if Truthy(returnType) then ") -> " + returnType.value + ":\n" else ") -> None:\n"
  }

  /** The `def` line: the receiver is put in front of the given parameters. */
  function MethodHeader(name: string, params: seq<Param>, returnType: Option<string>, indent: nat): string
  {
    Indentation(indent) + "def " + name + "(" + ParamList([SelfParam] + params) + ReturnAnnotation(returnType)
  }

  /** The text the printer appends for `tree` printed at indent level `indent`. */
  function Text(tree: Node, indent: nat): string
    decreases if tree.PassStatement? then 0 else 1, tree
  {
    match tree
    case Program(body) => Lines(body, indent, "")
    case ClassDeclaration(name, superClass, body) =>
      Indentation(indent) + "class " + name + "(" + (if Truthy(superClass) then superClass.value else "") + "):\n"
      + Lines(body, indent + 1, "\n")
    case ClassMethod(name, params, body, returnType) =>
      MethodHeader(name, params, returnType, indent) + Lines(body, indent + 1, "")
      + (if |body| == 0 then Text(PassStatement, indent + 1) else "")
    case BlockStatement(body) => Lines(body, indent + 1, "")
    case VariableDeclaration(idName, initValue) => Indentation(indent) + idName + " = " + initValue + "\n"
    case Literal(value) => value
    case Identifier(name, _) => name
    case ReturnStatement(argument) => Indentation(indent) + "return " + Join(argument, ", ")
    case ImportDeclaration(source, specifiers, alias) =>
      if |specifiers| > 0 then Indentation(indent) + "from " + source + " import " + Join(specifiers, ", ") + "\n"
      else if Truthy(alias) then Indentation(indent) + "import " + source + " as " + alias.value + "\n"
      else Indentation(indent) + "import " + source + "\n"
    case NewLine(n) => Newlines(n)
    case PassStatement => Indentation(indent) + "pass\n"
    case UnknownTag(_) => ""
  }

  /** The children in order, each at `indent` and each followed by `trailer`. */
  function Lines(children: seq<Node>, indent: nat, trailer: string): string
    decreases 1, children
  {
    if children == [] then ""
    else Lines(children[..|children| - 1], indent, trailer) + Text(children[|children| - 1], indent) + trailer
  }

  /**
   * The tree as it is after printing: printing a ClassMethod puts a new receiver
   * parameter in front of its parameters, every time.
   */
  function AfterPrint(tree: Node): Node
    decreases tree
  {
    match tree
    case Program(body) => Program(AfterPrintAll(body))
    case ClassDeclaration(name, superClass, body) => ClassDeclaration(name, superClass, AfterPrintAll(body))
    case ClassMethod(name, params, body, returnType) =>
      ClassMethod(name, [SelfParam] + params, AfterPrintAll(body), returnType)
    case BlockStatement(body) => BlockStatement(AfterPrintAll(body))
    case _ => tree
  }

  function AfterPrintAll(children: seq<Node>): (r: seq<Node>)
    decreases children
    ensures |r| == |children|
  {
    if children == [] then []
    else AfterPrintAll(children[..|children| - 1]) + [AfterPrint(children[|children| - 1])]
  }

  /** The number of ClassMethod nodes the printer visits in `tree`. */
  function MethodCount(tree: Node): nat
    decreases tree
  {
    match tree
    case Program(body) => MethodCountAll(body)
    case ClassDeclaration(_, _, body) => MethodCountAll(body)
    case ClassMethod(_, _, body, _) => 1 + MethodCountAll(body)
    case BlockStatement(body) => MethodCountAll(body)
    case _ => 0
  }

  function MethodCountAll(children: seq<Node>): nat
    decreases children
  {
    if children == [] then 0
    else MethodCountAll(children[..|children| - 1]) + MethodCount(children[|children| - 1])
  }

  // ---------------------------------------------------------------------------
  // Factory functions: plain record builders, each stated by how the printer
  // renders what it builds.

  function CreateVariableDeclaration(name: string, value: string): (r: Node)
    ensures forall indent: nat :: Text(r, indent) == Indentation(indent) + name + " = " + value + "\n"
  {
    VariableDeclaration(name, value)
  }

  /** An identifier prints as its bare name, at any indent, whatever its annotation. */
  function CreateIdentifier(name: string, dtype: Option<string>): (r: Node)
    ensures forall indent: nat :: Text(r, indent) == name
  {
    Identifier(name, dtype)
  }

  /** A return statement ends without a line break. */
  function CreateReturnStatement(value: seq<string>): (r: Node)
    ensures forall indent: nat :: Text(r, indent) == Indentation(indent) + "return " + Join(value, ", ")
  {
    ReturnStatement(value)
  }

  /** A method prints its `def` line, then its body one level deeper, or one `pass` line when the body is empty. */
  function CreateClassMethodDeclaration(name: string, params: seq<Param>, body: seq<Node>, returnType: Option<string>): (r: Node)
    ensures forall indent: nat :: body == [] ==>
      Text(r, indent) == MethodHeader(name, params, returnType, indent) + Indentation(indent + 1) + "pass\n"
    ensures forall indent: nat :: body != [] ==>
      Text(r, indent) == MethodHeader(name, params, returnType, indent) + Lines(body, indent + 1, "")
  {
    ClassMethod(name, params, body, returnType)
  }

  /** The three import forms: `from ... import ...`, `import ... as ...` and plain `import ...`. */
  function CreateImportDeclaration(source: string, specifiers: seq<string>, alias: Option<string>): (r: Node)
    ensures forall indent: nat :: |specifiers| > 0 ==>
      Text(r, indent) == Indentation(indent) + "from " + source + " import " + Join(specifiers, ", ") + "\n"
    ensures forall indent: nat :: |specifiers| == 0 && Truthy(alias) ==>
      Text(r, indent) == Indentation(indent) + "import " + source + " as " + alias.value + "\n"
    ensures forall indent: nat :: |specifiers| == 0 && !Truthy(alias) ==>
      Text(r, indent) == Indentation(indent) + "import " + source + "\n"
  {
    ImportDeclaration(source, specifiers, alias)
  }

  /** `n` line breaks and nothing else, with no indent. */
  function CreateNewLine(n: int): (r: Node)
    ensures forall indent: nat :: Text(r, indent) == Newlines(n)
    ensures forall indent: nat :: |Text(r, indent)| == if n > 0 then n else 0
  {
    NewlinesShape(n);
    NewLine(n)
  }

  /** `pass` on a line of its own at the current indent. */
  function CreatePassStatement(): (r: Node)
    ensures forall indent: nat :: Text(r, indent) == Indentation(indent) + "pass\n"
  {
    PassStatement
  }

  // ---------------------------------------------------------------------------
  // The printer.

  /** The loop that builds the indent string: four spaces per level. */
  method IndentString(indent: nat) returns (indentStr: string)
    ensures indentStr == Indentation(indent)
    ensures |indentStr| == 4 * indent
  {
    indentStr := "";
    for i := 0 to indent
      invariant indentStr == Indentation(i)
    {
      indentStr := indentStr + "    ";
    }
    IndentationIsFourSpacesPerLevel(indent);
  }

  /** Appends the items with `", "` between them and no trailing separator. */
  method EmitJoined(items: seq<string>, code: string) returns (code': string)
    ensures code' == code + Join(items, ", ")
  {
    code' := code;
    for i := 0 to |items|
      invariant code' == code + Join(items[..i], ", ") + (if 0 < i < |items| then ", " else "")
    {
      code' := code' + items[i];
      JoinPrefixStep(items, i, ", ");
      assert code' == code + Join(items[..i + 1], ", ");
      if i < |items| - 1 {
        code' := code' + ", ";
      }
    }
    assert items[..|items|] == items;
  }

  /** Appends each parameter, annotated unless it is the receiver, separated by `", "`. */
  method EmitParams(params: seq<Param>, code: string) returns (code': string)
    ensures code' == code + ParamList(params)
  {
    code' := code;
    ghost var texts := ParamTexts(params);
    for i := 0 to |params|
      invariant code' == code + Join(texts[..i], ", ") + (if 0 < i < |params| then ", " else "")
    {
      ghost var before := code';
      code' := code' + params[i].name;
      if params[i].dtype != Some("self") {
        ghost var named := code';
        if Truthy(params[i].dtype) {
          code' := code' + ": " + params[i].dtype.value;
          AppendAssoc(named, ": ", params[i].dtype.value);
        } else {
          code' := code' + ": Any";
        }
        AppendAssoc(before, params[i].name, code'[|named|..]);
      }
      assert code' == before + texts[i];
      JoinPrefixStep(texts, i, ", ");
      ghost var joined, sep := Join(texts[..i], ", "), if i > 0 then ", " else "";
      AppendAssoc(code + joined, sep, texts[i]);
      AppendAssoc(code, joined, sep + texts[i]);
      AppendAssoc(joined, sep, texts[i]);
      assert code' == code + Join(texts[..i + 1], ", ");
      if i < |params| - 1 {
        code' := code' + ", ";
      }
    }
    assert texts[..|params|] == texts;
  }

  /** Appends `n` line breaks. */
  method EmitNewLines(n: int, code: string) returns (code': string)
    ensures code' == code + Newlines(n)
  {
    code' := code;
    var i := 0;
    while i < n
      invariant 0 <= i && (i <= n || i == 0)
      invariant code' == code + Newlines(i)
    {
      code' := code' + "\n";
      i := i + 1;
    }
  }

  /** Prints the children in order at `indent`, appending `trailer` after each. */
  method EmitAll(children: seq<Node>, indent: nat, trailer: string, code: string)
    returns (after: seq<Node>, code': string)
    decreases 1, children
    ensures code' == code + Lines(children, indent, trailer)
    ensures after == AfterPrintAll(children)
  {
    code' := code;
    after := [];
    for i := 0 to |children|
      invariant code' == code + Lines(children[..i], indent, trailer)
      invariant after == AfterPrintAll(children[..i])
    {
      ghost var done := Lines(children[..i], indent, trailer);
      var child;
      child, code' := Emit(children[i], indent, code');
      code' := code' + trailer;
      after := after + [child];
      assert children[..i + 1][..i] == children[..i] && children[..i + 1][i] == children[i];
      AppendAssoc(code + done, Text(children[i], indent), trailer);
      AppendAssoc(code, done, Text(children[i], indent) + trailer);
      AppendAssoc(done, Text(children[i], indent), trailer);
    }
    assert children[..|children|] == children;
  }

  /**
   * generatePythonCodeUtil: appends the text of `tree` at `indent` to `code`,
   * and gives back the tree as printing leaves it.
   */
  method Emit(tree: Node, indent: nat, code: string) returns (after: Node, code': string)
    decreases if tree.PassStatement? then 0 else 1, tree, 1
    ensures code' == code + Text(tree, indent)
    ensures after == AfterPrint(tree)
  {
    var indentStr := IndentString(indent);
    after := tree;
    match tree {
      case Program(body) =>
        var body';
        body', code' := EmitAll(body, indent, "", code);
        after := Program(body');
      case ClassDeclaration(_, _, _) =>
        after, code' := EmitClass(tree, indent, indentStr, code);
      case ClassMethod(_, _, _, _) =>
        after, code' := EmitMethod(tree, indent, indentStr, code);
      case BlockStatement(body) =>
        var body';
        body', code' := EmitAll(body, indent + 1, "", code);
        after := BlockStatement(body');
      case ImportDeclaration(_, _, _) =>
        code' := EmitImport(tree, indent, indentStr, code);
      case _ =>
        code' := EmitStatement(tree, indent, indentStr, code);
    }
  }

  /** The branches that print a single statement or expression and leave the tree as it is. */
  method EmitStatement(tree: Node, indent: nat, indentStr: string, code: string) returns (code': string)
    requires indentStr == Indentation(indent)
    requires !tree.Program? && !tree.ClassDeclaration? && !tree.ClassMethod? && !tree.BlockStatement?
    requires !tree.ImportDeclaration?
    ensures code' == code + Text(tree, indent)
  {
    code' := code;
    match tree {
      case VariableDeclaration(idName, initValue) =>
        code' := code' + indentStr + idName + " = ";
        code' := code' + initValue;
        code' := code' + "\n";
        AppendAssoc(code, indentStr + idName + " = " + initValue, "\n");
        AppendAssoc(code, indentStr + idName + " = ", initValue);
        AppendAssoc(code, indentStr + idName, " = ");
        AppendAssoc(code, indentStr, idName);
      case Literal(value) =>
        code' := code' + value;
      case Identifier(name, _) =>
        code' := code' + name;
      case ReturnStatement(argument) =>
        code' := code' + indentStr + "return ";
        code' := EmitJoined(argument, code');
        AppendAssoc(code, indentStr + "return ", Join(argument, ", "));
        AppendAssoc(code, indentStr, "return ");
      case NewLine(n) =>
        code' := EmitNewLines(n, code');
      case PassStatement =>
        code' := code' + indentStr + "pass\n";
        AppendAssoc(code, indentStr, "pass\n");
      case UnknownTag(_) =>
    }
  }

  /** The ImportDeclaration branch: `from ... import ...`, `import ... as ...` or plain `import ...`. */
  method EmitImport(tree: Node, indent: nat, indentStr: string, code: string) returns (code': string)
    requires tree.ImportDeclaration? && indentStr == Indentation(indent)
    ensures code' == code + Text(tree, indent)
  {
    var source := tree.source;
    if |tree.specifiers| > 0 {
      code' := code + indentStr + "from " + source + " import ";
      code' := EmitJoined(tree.specifiers, code');
      code' := code' + "\n";
      ghost var opening := indentStr + "from " + source + " import ";
      AppendAssoc(code, opening + Join(tree.specifiers, ", "), "\n");
      AppendAssoc(code, opening, Join(tree.specifiers, ", "));
      AppendAssoc(code, indentStr + "from " + source, " import ");
      AppendAssoc(code, indentStr + "from ", source);
      AppendAssoc(code, indentStr, "from ");
    } else if Truthy(tree.alias) {
      code' := code + indentStr + "import " + source + " as " + tree.alias.value + "\n";
      ghost var line := indentStr + "import " + source + " as " + tree.alias.value;
      AppendAssoc(code, line, "\n");
      AppendAssoc(code, indentStr + "import " + source + " as ", tree.alias.value);
      AppendAssoc(code, indentStr + "import " + source, " as ");
      AppendAssoc(code, indentStr + "import ", source);
      AppendAssoc(code, indentStr, "import ");
    } else {
      code' := code + indentStr + "import " + source + "\n";
      AppendAssoc(code, indentStr + "import " + source, "\n");
      AppendAssoc(code, indentStr + "import ", source);
      AppendAssoc(code, indentStr, "import ");
    }
  }

  /** The ClassDeclaration branch: the `class` line, then each member one level deeper followed by a blank line. */
  method EmitClass(tree: Node, indent: nat, indentStr: string, code: string) returns (after: Node, code': string)
    requires tree.ClassDeclaration? && indentStr == Indentation(indent)
    decreases 1, tree, 0
    ensures code' == code + Text(tree, indent)
    ensures after == AfterPrint(tree)
  {
    code' := code + indentStr + "class " + tree.name + "(";
    ghost var opening := indentStr + "class " + tree.name + "(";
    AppendAssoc(code, indentStr + "class " + tree.name, "(");
    AppendAssoc(code, indentStr + "class ", tree.name);
    AppendAssoc(code, indentStr, "class ");
    if Truthy(tree.superClass) {
      code' := code' + tree.superClass.value;
    }
    code' := code' + "):\n";
    ghost var superClass := if Truthy(tree.superClass) then tree.superClass.value else "";
    AppendAssoc(code, opening + superClass, "):\n");
    AppendAssoc(code, opening, superClass);
    ghost var head := opening + superClass + "):\n";
    assert code' == code + head;
    var body';
    body', code' := EmitAll(tree.body, indent + 1, "\n", code');
    AppendAssoc(code, head, Lines(tree.body, indent + 1, "\n"));
    after := ClassDeclaration(tree.name, tree.superClass, body');
  }

  /** The `def` line of a method whose parameters, receiver included, are `params`. */
  method EmitMethodHeader(name: string, params: seq<Param>, returnType: Option<string>, indentStr: string, code: string)
    returns (code': string)
    ensures code' == code + (indentStr + "def " + name + "(" + ParamList(params) + ReturnAnnotation(returnType))
  {
    code' := code + indentStr + "def " + name + "(";
    ghost var opening := indentStr + "def " + name + "(";
    AppendAssoc(code, indentStr + "def " + name, "(");
    AppendAssoc(code, indentStr + "def ", name);
    AppendAssoc(code, indentStr, "def ");
    code' := EmitParams(params, code');
    ghost var withParams := code';
    if Truthy(returnType) {
      code' := code' + ") -> " + returnType.value + ":\n";
      AppendAssoc(withParams, ") -> " + returnType.value, ":\n");
      AppendAssoc(withParams, ") -> ", returnType.value);
    } else {
      code' := code' + ") -> None" + ":\n";
      AppendAssoc(withParams, ") -> None", ":\n");
      assert ") -> None" + ":\n" == ") -> None:\n";
    }
    assert code' == withParams + ReturnAnnotation(returnType);
    AppendAssoc(code, opening + ParamList(params), ReturnAnnotation(returnType));
    AppendAssoc(code, opening, ParamList(params));
  }

  /**
   * The ClassMethod branch: puts a new receiver in front of the parameters,
   * prints the `def` line, then the body one level deeper, or `pass` when the
   * body is empty.
   */
  method EmitMethod(tree: Node, indent: nat, indentStr: string, code: string) returns (after: Node, code': string)
    requires tree.ClassMethod? && indentStr == Indentation(indent)
    decreases 1, tree, 0
    ensures code' == code + Text(tree, indent)
    ensures after == AfterPrint(tree)
  {
    var params' := [SelfParam] + tree.params;
    code' := EmitMethodHeader(tree.name, params', tree.returnType, indentStr, code);
    ghost var header := MethodHeader(tree.name, tree.params, tree.returnType, indent);
    assert code' == code + header;
    var body';
    body', code' := EmitAll(tree.body, indent + 1, "", code');
    ghost var lines := Lines(tree.body, indent + 1, "");
    ghost var pass := if |tree.body| == 0 then Text(PassStatement, indent + 1) else "";
    if |tree.body| == 0 {
      var _, withPass := Emit(PassStatement, indent + 1, code');
      code' := withPass;
    }
    assert code' == ((code + header) + lines) + pass;
    AppendAssoc(code, header, lines);
    AppendAssoc(code, header + lines, pass);
    after := ClassMethod(tree.name, params', body', tree.returnType);
  }

  /** generatePythonCode: the text of the whole tree from indent level 0, and the tree as printing leaves it. */
  method GeneratePythonCode(tree: Node) returns (code: string, after: Node)
    ensures code == Text(tree, 0)
    ensures after == AfterPrint(tree)
  {
    after, code := Emit(tree, 0, "");
  }

  // ---------------------------------------------------------------------------
  // Properties of the printed text.

  /** The receiver prints bare, ahead of the given parameters and separated from them by `", "`. */
  lemma ParamListWithSelf(params: seq<Param>)
    ensures ParamList([SelfParam] + params) == "self" + (if params == [] then "" else ", " + ParamList(params))
  {
    var texts := ParamTexts([SelfParam] + params);
    assert texts[0] == "self";
    if params != [] {
      assert texts[1..] == ParamTexts(params);
    } else {
      assert texts == ["self"];
    }
  }

  /** Children print one after another: the text of a concatenation is the concatenation of the texts. */
  lemma {:induction false} LinesAppend(a: seq<Node>, b: seq<Node>, indent: nat, trailer: string)
    ensures Lines(a + b, indent, trailer) == Lines(a, indent, trailer) + Lines(b, indent, trailer)
  {
    if b == [] {
      assert a + b == a;
    } else {
      var b' := b[..|b| - 1];
      assert (a + b)[..|a + b| - 1] == a + b';
      assert (a + b)[|a + b| - 1] == b[|b| - 1];
      LinesAppend(a, b', indent, trailer);
      var last := Text(b[|b| - 1], indent) + trailer;
      AppendAssoc(Lines(a, indent, trailer), Lines(b', indent, trailer), last);
      AppendAssoc(Lines(a + b', indent, trailer), Text(b[|b| - 1], indent), trailer);
      AppendAssoc(Lines(b', indent, trailer), Text(b[|b| - 1], indent), trailer);
    }
  }

  /** A Program prints its statements in order, each as if it were printed alone. */
  lemma ProgramPrintsInOrder(a: seq<Node>, b: seq<Node>, indent: nat)
    ensures Text(Program(a + b), indent) == Text(Program(a), indent) + Text(Program(b), indent)
  {
    LinesAppend(a, b, indent, "");
  }

  /** A block at some level prints as its statements would at the next level. */
  lemma BlockIsOneLevelDeeper(body: seq<Node>, indent: nat)
    ensures Text(BlockStatement(body), indent) == Text(Program(body), indent + 1)
  {
  }

  /**
   * Printing a tree a second time prints a longer text: six more characters
   * (`"self, "`) for every method in it.
   */
  lemma {:induction false} ReprintGrowth(tree: Node, indent: nat)
    decreases tree
    ensures |Text(AfterPrint(tree), indent)| == |Text(tree, indent)| + 6 * MethodCount(tree)
  {
    match tree
    case Program(body) =>
      ReprintGrowthAll(body, indent, "");
    case ClassDeclaration(name, superClass, body) =>
      ReprintGrowthAll(body, indent + 1, "\n");
      ReprintGrowthClass(name, superClass, body, indent);
    case ClassMethod(name, params, body, returnType) =>
      ReprintGrowthAll(body, indent + 1, "");
      ReprintGrowthMethod(name, params, body, returnType, indent);
    case BlockStatement(body) =>
      ReprintGrowthAll(body, indent + 1, "");
    case _ =>
      assert AfterPrint(tree) == tree;
  }

  /** A class grows by what its members grow. */
  lemma ReprintGrowthClass(name: string, superClass: Option<string>, body: seq<Node>, indent: nat)
    requires |Lines(AfterPrintAll(body), indent + 1, "\n")| == |Lines(body, indent + 1, "\n")| + 6 * MethodCountAll(body)
    ensures |Text(AfterPrint(ClassDeclaration(name, superClass, body)), indent)|
         == |Text(ClassDeclaration(name, superClass, body), indent)| + 6 * MethodCountAll(body)
  {
    assert AfterPrint(ClassDeclaration(name, superClass, body)) == ClassDeclaration(name, superClass, AfterPrintAll(body));
  }

  /** A method grows by one receiver plus what its statements grow. */
  lemma ReprintGrowthMethod(name: string, params: seq<Param>, body: seq<Node>, returnType: Option<string>, indent: nat)
    requires |Lines(AfterPrintAll(body), indent + 1, "")| == |Lines(body, indent + 1, "")| + 6 * MethodCountAll(body)
    ensures |Text(AfterPrint(ClassMethod(name, params, body, returnType)), indent)|
         == |Text(ClassMethod(name, params, body, returnType), indent)| + 6 + 6 * MethodCountAll(body)
  {
    HeaderGrowth(name, params, returnType, indent);
    assert AfterPrint(ClassMethod(name, params, body, returnType))
        == ClassMethod(name, [SelfParam] + params, AfterPrintAll(body), returnType);
    assert |AfterPrintAll(body)| == |body|;
  }

  /** A second receiver lengthens a method's header by `"self, "`. */
  lemma HeaderGrowth(name: string, params: seq<Param>, returnType: Option<string>, indent: nat)
    ensures |MethodHeader(name, [SelfParam] + params, returnType, indent)| == |MethodHeader(name, params, returnType, indent)| + 6
  {
    ParamListWithSelf(params);
    ParamListWithSelf([SelfParam] + params);
  }

  lemma {:induction false} ReprintGrowthAll(children: seq<Node>, indent: nat, trailer: string)
    decreases children
    ensures |Lines(AfterPrintAll(children), indent, trailer)| == |Lines(children, indent, trailer)| + 6 * MethodCountAll(children)
  {
    if children != [] {
      var n := |children|;
      ReprintGrowthAll(children[..n - 1], indent, trailer);
      ReprintGrowth(children[n - 1], indent);
      var after := AfterPrintAll(children);
      assert after[..n - 1] == AfterPrintAll(children[..n - 1]);
      assert after[n - 1] == AfterPrint(children[n - 1]);
    }
  }

  /** A tree without methods is left as it was by printing. */
  lemma {:induction false} NoMethodsUntouched(tree: Node)
    decreases tree
    requires MethodCount(tree) == 0
    ensures AfterPrint(tree) == tree
  {
    match tree
    case Program(body) => NoMethodsUntouchedAll(body);
    case ClassDeclaration(_, _, body) => NoMethodsUntouchedAll(body);
    case BlockStatement(body) => NoMethodsUntouchedAll(body);
    case _ =>
  }

  lemma {:induction false} NoMethodsUntouchedAll(children: seq<Node>)
    decreases children
    requires MethodCountAll(children) == 0
    ensures AfterPrintAll(children) == children
  {
    if children != [] {
      var n := |children|;
      NoMethodsUntouchedAll(children[..n - 1]);
      NoMethodsUntouched(children[n - 1]);
      assert children[..n - 1] + [children[n - 1]] == children;
    }
  }

  /**
   * Printing the same tree twice gives byte-identical text exactly when the tree
   * holds no ClassMethod: each print puts another receiver in front of every
   * method's parameters.
   */
  lemma ReprintIdenticalIffNoMethods(tree: Node, indent: nat)
    ensures Text(AfterPrint(tree), indent) == Text(tree, indent) <==> MethodCount(tree) == 0
  {
    ReprintGrowth(tree, indent);
    if MethodCount(tree) == 0 {
      NoMethodsUntouched(tree);
    }
  }

  /** A method that already lists the receiver prints it twice. */
  lemma ReceiverAlreadyPresentPrintsTwice()
    ensures Text(ClassMethod("forward", [SelfParam], [], None), 0)
         == "def forward(" + "self, self" + ") -> None:\n" + "    pass\n"
  {
    ParamListWithSelf([]);
    assert [SelfParam] + [] == [SelfParam];
    assert ParamList([SelfParam]) == "self";
    ParamListWithSelf([SelfParam]);
    var params := ParamList([SelfParam] + [SelfParam]);
    assert params == "self, self";
    var header := MethodHeader("forward", [SelfParam], None, 0);
    assert header == "def forward(" + params + ") -> None:\n" by {
      assert Indentation(0) == "" && ReturnAnnotation(None) == ") -> None:\n";
      assert "" + "def " + "forward" + "(" == "def forward(";
    }
    var pass := Text(PassStatement, 1);
    assert pass == "    pass\n" by {
      assert Indentation(1) == "    ";
    }
    assert Text(ClassMethod("forward", [SelfParam], [], None), 0) == header + "" + pass by {
      assert Lines([], 1, "") == "";
    }
    assert header + "" == header;
  }

  /** A return statement leaves its line open, so the next statement continues it. */
  lemma ReturnLeavesLineOpen()
    ensures Text(Program([ReturnStatement(["a"]), VariableDeclaration("b", "c")]), 0) == "return ab = c\n"
  {
    var body := [ReturnStatement(["a"]), VariableDeclaration("b", "c")];
    assert body[..1] == [ReturnStatement(["a"])];
    assert body[..1][..0] == [];
  }
}
