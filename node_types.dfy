/**
 * The pure part of a graph node: the three layer-type catalogs that decide how
 * a node is rendered, the camelCase to snake_case conversion used for
 * functional layers, the node's output variable name, and the expression
 * template a node evaluates to.
 */
module NodeTypes {
  import opened Wrappers
  import opened Strings

  /** Layers with trainable state, rendered as calls to a `self.` sub-module. */
  const LearnableLayerTypes: seq<string> := ["Conv2d", "Linear", "BatchNorm2d", "Dropout"]

  /** Stateless layers, rendered as calls into `F.`. */
  const NonLearnableLayerTypes: seq<string> :=
    ["Flatten", "ReLU", "Tanh", "Sigmoid", "Softmax", "Softmax2d", "LogSoftmax",
     "LogSigmoid", "Identity", "MaxPool2d", "AvgPool2d", "AdaptiveAvgPool2d", "AdaptiveMaxPool2d"]

  /** Elementwise operators, rendered as calls into `torch.`. */
  const FunctionalLayer: seq<string> := ["Add", "Multiply"]

  /** Which rendering branch a node type selects. */
  datatype Category = Learnable | NonLearnable | Functional | Unclassified

  /** The catalogs are tried in the order the evaluation tests them. */
  function CategoryOf(nodeType: string): (c: Category)
    ensures c == Learnable <==> nodeType in LearnableLayerTypes
    ensures c == NonLearnable <==> nodeType in NonLearnableLayerTypes
    ensures c == Functional <==> nodeType in FunctionalLayer
    ensures c == Unclassified <==>
      nodeType !in LearnableLayerTypes && nodeType !in NonLearnableLayerTypes && nodeType !in FunctionalLayer
  {
    CatalogsDisjoint(nodeType);
    if nodeType in LearnableLayerTypes then Learnable
    else if nodeType in NonLearnableLayerTypes then NonLearnable
    else if nodeType in FunctionalLayer then Functional
    else Unclassified
  }

  /** No type is listed in two catalogs, so the order of the tests does not matter. */
  lemma CatalogsDisjoint(nodeType: string)
    ensures !(nodeType in LearnableLayerTypes && nodeType in NonLearnableLayerTypes)
    ensures !(nodeType in LearnableLayerTypes && nodeType in FunctionalLayer)
    ensures !(nodeType in NonLearnableLayerTypes && nodeType in FunctionalLayer)
  {
  }

  /** The boundary types are in no catalog: their nodes evaluate to no expression. */
  lemma BoundaryTypesAreUnclassified()
    ensures CategoryOf("Input") == Unclassified
    ensures CategoryOf("Output") == Unclassified
  {
  }

  // ---------------------------------------------------------------------------
  // Case conversion. JavaScript's toUpperCase/toLowerCase are modelled on ASCII:
  // only 'a'..'z' and 'A'..'Z' change.

  function ToUpper(c: char): char
  {
    if 'a' <= c <= 'z' then (c as int - 32) as char else c
  }

  function ToLower(c: char): char
  {
    if 'A' <= c <= 'Z' then (c as int + 32) as char else c
  }

  /**
   * The test `str[i] === str[i].toUpperCase()`: true for capitals and for every
   * character that has no case (digits, '_', punctuation).
   */
  predicate IsUpperForm(c: char)
  {
    c == ToUpper(c)
  }

  /** What the conversion emits for position `i`: an optional `_`, then the lower-cased character. */
  function Piece(s: string, i: nat): string
    requires i < |s|
  {
    (if i > 0 && IsUpperForm(s[i]) then "_" else "") + [ToLower(s[i])]
  }

  /** The snake_case form of `s`, built left to right one position at a time. */
  function Snake(s: string): string
  {
    if s == [] then "" else Snake(s[..|s| - 1]) + Piece(s, |s| - 1)
  }

  /** The number of positions after the first whose character is its own upper-case form. */
  function Breaks(s: string): nat
  {
    if |s| <= 1 then 0 else Breaks(s[..|s| - 1]) + (if IsUpperForm(s[|s| - 1]) then 1 else 0)
  }

  /**
   * camelToSnake: walks the string once, writing `_` before every character
   * at a position after the first that equals its own upper-case form, and
   * the lower-cased character itself.
   */
  method CamelToSnake(str: string) returns (result: string)
    ensures result == Snake(str)
  {
    result := "";
    var i := 0;
    while i < |str|
      invariant 0 <= i <= |str|
      invariant result == Snake(str[..i])
    {
      if str[i] == ToUpper(str[i]) {
        if i > 0 {
          result := result + "_";
        }
      }
      result := result + [ToLower(str[i])];
      assert str[..i + 1][..i] == str[..i];
      assert Piece(str[..i + 1], i) == Piece(str, i);
      i := i + 1;
    }
    assert str[..|str|] == str;
  }

  /** The output is the input plus one `_` per break. */
  lemma {:induction false} SnakeLength(s: string)
    ensures |Snake(s)| == |s| + Breaks(s)
  {
    if s != [] {
      SnakeLength(s[..|s| - 1]);
    }
  }

  /** No ASCII capital survives the conversion. */
  lemma {:induction false} SnakeHasNoCapitals(s: string)
    ensures forall i :: 0 <= i < |Snake(s)| ==> !('A' <= Snake(s)[i] <= 'Z')
  {
    if s != [] {
      SnakeHasNoCapitals(s[..|s| - 1]);
    }
  }

  /**
   * The conversion read from the front: the first character is only lower-cased,
   * and every later one is lower-cased with a `_` before it when it is its own
   * upper-case form.
   */
  function SnakeTail(t: string): string
  {
    if t == [] then "" else (if IsUpperForm(t[0]) then "_" else "") + [ToLower(t[0])] + SnakeTail(t[1..])
  }

  lemma {:induction false} SnakeTailSnoc(t: string, c: char)
    ensures SnakeTail(t + [c]) == SnakeTail(t) + (if IsUpperForm(c) then "_" else "") + [ToLower(c)]
  {
    if t != [] {
      assert (t + [c])[1..] == t[1..] + [c];
      SnakeTailSnoc(t[1..], c);
    }
  }

  /** The left-to-right definition agrees with the front-first reading. */
  lemma {:induction false} SnakeFromFront(s: string)
    requires s != []
    ensures Snake(s) == [ToLower(s[0])] + SnakeTail(s[1..])
  {
    if |s| > 1 {
      var p := s[..|s| - 1];
      SnakeFromFront(p);
      assert p[1..] + [s[|s| - 1]] == s[1..];
      SnakeTailSnoc(p[1..], s[|s| - 1]);
    }
  }

  /** A run of lower-case ASCII letters passes through the tail conversion unchanged. */
  lemma {:induction false} SnakeTailOfLowercase(t: string)
    requires forall i :: 0 <= i < |t| ==> 'a' <= t[i] <= 'z'
    ensures SnakeTail(t) == t
  {
    if t != [] {
      SnakeTailOfLowercase(t[1..]);
    }
  }

  /** The tail conversion of two pieces is the two conversions one after the other. */
  lemma {:induction false} SnakeTailAppend(t: string, u: string)
    ensures SnakeTail(t + u) == SnakeTail(t) + SnakeTail(u)
  {
    if t != [] {
      assert (t + u)[1..] == t[1..] + u;
      SnakeTailAppend(t[1..], u);
    } else {
      assert t + u == u;
    }
  }

  /** The functional operator `Add` converts to `add`. */
  lemma SnakeOfAdd()
    ensures Snake("Add") == "add"
  {
    SnakeFromFront("Add");
    assert "Add"[1..] == "dd";
    SnakeTailOfLowercase("dd");
  }

  /** The functional operator `Multiply` converts to `multiply`. */
  lemma SnakeOfMultiply()
    ensures Snake("Multiply") == "multiply"
  {
    SnakeFromFront("Multiply");
    assert "Multiply"[1..] == "ultiply";
    SnakeTailOfLowercase("ultiply");
  }

  /** A capital after the first character is preceded by `_`. */
  lemma SnakeTailOfAdd()
    ensures SnakeTail("Add") == "_add"
  {
    assert "Add"[1..] == "dd";
    SnakeTailOfLowercase("dd");
  }

  /** Converting a concatenation converts the second part as a continuation. */
  lemma SnakeAppend(s: string, t: string)
    requires s != []
    ensures Snake(s + t) == Snake(s) + SnakeTail(t)
  {
    SnakeFromFront(s + t);
    SnakeFromFront(s);
    assert (s + t)[0] == s[0] && (s + t)[1..] == s[1..] + t;
    SnakeTailAppend(s[1..], t);
    AppendAssoc([ToLower(s[0])], SnakeTail(s[1..]), SnakeTail(t));
  }

  /** A second capital gets an underscore: `MultiplyAdd` converts to `multiply_add`. */
  lemma SnakeOfMultiplyAdd()
    ensures Snake("MultiplyAdd") == "multiply_add"
  {
    assert "MultiplyAdd" == "Multiply" + "Add";
    SnakeAppend("Multiply", "Add");
    SnakeOfMultiply();
    SnakeTailOfAdd();
  }

  /** A digit equals its own upper-case form, so `Conv2d` converts to `conv_2d`. */
  lemma SnakeOfConv2d()
    ensures Snake("Conv2d") == "conv_2d"
  {
    SnakeFromFront("Conv2d");
    assert "Conv2d"[1..] == "onv" + ("2" + "d");
    SnakeTailAppend("onv", "2" + "d");
    SnakeTailAppend("2", "d");
    SnakeTailOfLowercase("onv");
    SnakeTailOfLowercase("d");
    assert SnakeTail("2") == "_2" by {
      assert "2"[1..] == "";
    }
  }

  // ---------------------------------------------------------------------------

  /**
   * setOutVarName: the variable that holds a node's value. It extends the
   * node's name, equals it exactly for the two boundary types, and otherwise
   * adds the suffix `_out`.
   */
  function OutVarName(varName: string, nodeType: string): (r: string)
    ensures varName <= r
    ensures r == varName <==> nodeType == "Input" || nodeType == "Output"
    ensures r != varName ==> r[|varName|..] == "_out"
  {
    if nodeType == "Input" || nodeType == "Output" then varName else varName + "_out"
  }

  /**
   * The expression a node evaluates to on its first evaluation, given its
   * comma-joined argument list; None where the TypeScript falls off the end
   * and returns `undefined`.
   */
  function Expression(nodeType: string, varName: string, args: string): (r: Option<string>)
    ensures r.Some? <==> CategoryOf(nodeType) != Unclassified
    ensures nodeType in LearnableLayerTypes ==> r == Some("self." + varName + "(" + args + ")")
    ensures nodeType in NonLearnableLayerTypes ==> r == Some("F." + varName + "(" + args + ")")
    ensures nodeType in FunctionalLayer ==> r == Some("torch." + Snake(nodeType) + "(" + args + ")")
  {
    match CategoryOf(nodeType)
    case Learnable => Some("self." + varName + "(" + args + ")")
    case NonLearnable => Some("F." + varName + "(" + args + ")")
    case Functional => Some("torch." + Snake(nodeType) + "(" + args + ")")
    case Unclassified => None
  }

  /** An evaluated expression always ends with the argument list in parentheses, so it determines it. */
  lemma ExpressionDeterminesArguments(nodeType: string, varName: string, args1: string, args2: string)
    requires Expression(nodeType, varName, args1).Some?
    requires Expression(nodeType, varName, args1) == Expression(nodeType, varName, args2)
    ensures args1 == args2
  {
    var e1, e2 := Expression(nodeType, varName, args1).value, Expression(nodeType, varName, args2).value;
    var head := e1[..|e1| - |args1| - 1];
    assert e1 == head + args1 + ")";
    assert e2 == head + args2 + ")";
    assert args1 == e1[|head|..|e1| - 1];
  }

  /** The functional operators render as `torch.add(...)` and `torch.multiply(...)`. */
  lemma FunctionalExpressions(args: string)
    ensures Expression("Add", "add_1", args) == Some("torch.add(" + args + ")")
    ensures Expression("Multiply", "mul_1", args) == Some("torch.multiply(" + args + ")")
  {
    assert FunctionalLayer[0] == "Add" && FunctionalLayer[1] == "Multiply";
    SnakeOfAdd();
    SnakeOfMultiply();
    assert "torch." + "add" + "(" == "torch.add(";
    assert "torch." + "multiply" + "(" == "torch.multiply(";
  }
}
