/** The JSON layout the serializer promises, written as tables indexed by
    node kind and independent of how any object is built: a row per kind
    with its `expr` category, its `type` tag and the set of member names its
    object carries, and the rules for its `position` and `docstring`
    members. The layout is
    loosely the Mozilla Parser API one; the irregular tags and member names
    of Serializer.py (a list comprehension tagged `SetComp`, a dict
    comprehension tagged `GeneratorExp`, an alias tagged `ImportFrom`, an
    extended slice tagged `Slice`, a name's identifier under `line`) are part
    of it. */
module Layout {
  import opened Results
  import opened JsonValue
  import opened PyAst

  /** A kind's row of the layout: the `expr` category (the name of the
      kind's section of Serializer.py), the `type` tag, and the names of the
      members its object carries besides `expr` and `type`. Every member read
      through `guard` is listed: a missing attribute gives a null member,
      never a missing one. The kinds that always fail have no members. */
  datatype Row = Row(category: string, typeTag: string, members: set<Key>)

  /** The row of a kind, looked up in its section's table. */
  function RowOf(k: Kind): Row {
    match SectionOf(k)
    case Literals => LiteralRow(k)
    case Variables => VariableRow(k)
    case Expressions => ExpressionRow(k)
    case Subscripting => SubscriptRow(k)
    case Comprehensions => ComprehensionRow(k)
    case Statements => StatementRow(k)
    case Imports => ImportRow(k)
    case ControlFlow => ControlFlowRow(k)
    case Definitions => DefinitionRow(k)
    case Unknown => Row("Unknown", k.kindName, {})
  }

  function LiteralRow(k: Kind): (r: Row)
    requires SectionOf(k) == Literals
    ensures KDocstring in r.members <==> !k.Num?
    ensures KPosition in r.members
  {
    match k
    case Num(_) => Row("Literal", "Number", {KValue, KPosition})
    case Str(_) => Row("Literal", "String", {KValue, KPosition, KDocstring})
    case Bytes(_) => Row("Literal", "Bytes", {KValue, KPosition, KDocstring})
    case List(_) => Row("Literal", "List", {KValue, KPosition, KDocstring})
    case Tuple(_) => Row("Literal", "Tuple", {KValue, KPosition, KDocstring})
    case Set(_) => Row("Literal", "Set", {KValue, KPosition, KDocstring})
    case Dict(_, _) => Row("Literal", "Dict", {KValue, KPosition, KDocstring})
    case Ellipsis => Row("Literal", "Ellipsis", {KPosition, KDocstring})
    case NameConstant(_) => Row("Literal", "NameConstant", {KValue, KPosition, KDocstring})
  }

  function VariableRow(k: Kind): (r: Row)
    requires SectionOf(k) == Variables
    ensures KDocstring in r.members && KPosition in r.members
  {
    match k
    case Name(_) => Row("Variable", "Name", {KLine, KPosition, KDocstring})
    case Starred(_) => Row("Variable", "Starred", {KValue, KPosition, KDocstring})
  }

  function ExpressionRow(k: Kind): (r: Row)
    requires SectionOf(k) == Expressions
    ensures KDocstring in r.members
    ensures KPosition in r.members <==> !k.keyword?
  {
    match k
    case Expr(_) => Row("Expression", "Expr", {KValue, KPosition, KDocstring})
    case UnaryOp(_, _) => Row("Expression", "UnaryOp", {KOperator, KOperand, KPosition, KDocstring})
    case BinOp(_, _, _) => Row("Expression", "BinOp", {KOperator, KLeft, KRight, KPosition, KDocstring})
    case BoolOp(_, _) => Row("Expression", "BoolOp", {KOperator, KValues, KPosition, KDocstring})
    case Compare(_, _, _) =>
      Row("Expression", "Compare", {KLeft, KOperators, KComparators, KPosition, KDocstring})
    case Call(_, _, _, _, _) =>
      Row("Expression", "Call", {KFunction, KArgs, KKeywords, KStarargs, KKwargs, KPosition, KDocstring})
    case keyword(_, _) => Row("Expression", "keyword", {KArg, KValue, KDocstring})
    case IfExp(_, _, _) =>
      Row("Expression", "IfExp", {KTest, KConsequent, KAlternate, KPosition, KDocstring})
    case Attribute(_, _) => Row("Expression", "Attribute", {KValue, KAttribute, KPosition, KDocstring})
  }

  function SubscriptRow(k: Kind): (r: Row)
    requires SectionOf(k) == Subscripting
    ensures !k.Slice? ==> KDocstring in r.members && KPosition in r.members
  {
    match k
    case Subscript(_, _) => Row("Subscript", "Subscript", {KValue, KSlice, KPosition, KDocstring})
    case Slice(_, _, _) => Row("Subscript", "Slice", {})
    case Index(_) => Row("Subscript", "Index", {KValue, KPosition, KDocstring})
    case ExtSlice(_) => Row("Subscript", "Slice", {KDims, KPosition, KDocstring})
  }

  function ComprehensionRow(k: Kind): (r: Row)
    requires SectionOf(k) == Comprehensions
    ensures !AlwaysFails(k) ==> KDocstring in r.members && KPosition in r.members
  {
    match k
    case ListComp(_, _) => Row("Comprehension", "SetComp", {KElement, KGenerators, KPosition, KDocstring})
    case SetComp(_, _) => Row("Comprehension", "SetComp", {})
    case GeneratorExp(_, _) =>
      Row("Comprehension", "GeneratorExp", {KElement, KGenerators, KPosition, KDocstring})
    case DictComp(_, _, _) =>
      Row("Comprehension", "GeneratorExp", {KKey, KValue, KGenerators, KPosition, KDocstring})
    case comprehension(_, _, _) => Row("Comprehension", "Comprehension", {})
  }

  function StatementRow(k: Kind): (r: Row)
    requires SectionOf(k) == Statements
    ensures !AlwaysFails(k) ==> KDocstring in r.members && KPosition in r.members
  {
    match k
    case Assign(_, _) => Row("Statement", "Assign", {KTargets, KValue, KPosition, KDocstring})
    case AugAssign(_, _, _) =>
      Row("Statement", "AugAssign", {KTarget, KOperator, KValue, KPosition, KDocstring})
    case Print(_, _, _) => Row("Statement", "Print", {})
    case Assert(_, _) => Row("Statement", "Assert", {})
    case Raise(_, _) => Row("Statement", "Raise", {KExc, KCause, KPosition, KDocstring})
    case RaiseLegacy(_, _, _) =>
      Row("Statement", "Raise", {KExcType, KInst, KTback, KPosition, KDocstring})
    case Delete(_) => Row("Statement", "Delete", {KTargets, KPosition, KDocstring})
    case Pass => Row("Statement", "Pass", {KPosition, KDocstring})
  }

  function ImportRow(k: Kind): (r: Row)
    requires SectionOf(k) == Imports
    ensures KDocstring in r.members
    ensures KPosition in r.members <==> !k.alias?
  {
    match k
    case Import(_) => Row("Import", "Import", {KNames, KPosition, KDocstring})
    case ImportFrom(_, _, _) =>
      Row("Import", "ImportFrom", {KModule, KNames, KLevel, KPosition, KDocstring})
    case alias(_, _) => Row("Import", "ImportFrom", {KName, KAsname, KDocstring})
  }

  function ControlFlowRow(k: Kind): (r: Row)
    requires SectionOf(k) == ControlFlow
    ensures !k.With? ==> KDocstring in r.members && KPosition in r.members
  {
    match k
    case If(_, _, _) => Row("ControlFlow", "If", {KTest, KConsequent, KAlternate, KPosition, KDocstring})
    case For(_, _, _, _) =>
      Row("ControlFlow", "For", {KTarget, KIter, KBody, KOrelse, KPosition, KDocstring})
    case While(_, _, _) => Row("ControlFlow", "While", {KTest, KBody, KOrelse, KPosition, KDocstring})
    case Break => Row("ControlFlow", "Break", {KPosition, KDocstring})
    case Continue => Row("ControlFlow", "Continue", {KPosition, KDocstring})
    case Try(_, _, _, _) =>
      Row("ControlFlow", "Try", {KBody, KHandlers, KOrelse, KFinalbody, KPosition, KDocstring})
    case TryFinally(_, _) => Row("ControlFlow", "TryFinally", {KBody, KFinalbody, KPosition, KDocstring})
    case TryExcept(_, _, _) =>
      Row("ControlFlow", "TryExcept", {KBody, KHandlers, KOrelse, KPosition, KDocstring})
    case ExceptHandler(_, _, _) =>
      Row("ControlFlow", "ExceptHandler", {KExnType, KName, KBody, KPosition, KDocstring})
    case With(_, _) => Row("ControlFlow", "With", {})
    case withitem(_, _) =>
      Row("ControlFlow", "WithItem", {KContextExpr, KOptionalVars, KPosition, KDocstring})
  }

  function DefinitionRow(k: Kind): (r: Row)
    requires SectionOf(k) == Definitions
    ensures KDocstring in r.members
    ensures KPosition in r.members <==> !(k.arguments? || k.arg?)
  {
    match k
    case FunctionDef(_, _, _, _, _) =>
      Row("Definitions", "FunctionDef", {KName, KArgs, KBody, KDecorators, KReturns, KPosition, KDocstring})
    case Lambda(_, _) => Row("Definitions", "Lambda", {KArgs, KBody, KPosition, KDocstring})
    case arguments(_, _, _, _, _, _) =>
      Row("Definitions", "Arguments", {KArgs, KKwonlyargs, KVararg, KKwarg, KDefaults, KKwDefaults, KDocstring})
    case arg(_, _) => Row("Definitions", "arg", {KArg, KAnnotation, KDocstring})
    case Return(_) => Row("Definitions", "Return", {KValue, KPosition, KDocstring})
    case Yield(_) => Row("Definitions", "Yield", {KValue, KPosition, KDocstring})
    case YieldFrom(_) => Row("Definitions", "YieldFrom", {KValue, KPosition, KDocstring})
    case Global(_) => Row("Definitions", "Global", {KNames, KPosition, KDocstring})
    case Nonlocal(_) => Row("Definitions", "Nonlocal", {KNames, KPosition, KDocstring})
    case ClassDef(_, _, _, _, _, _, _) =>
      Row("Definitions", "ClassDef", {KName, KBases, KKeywords, KStarargs, KKwargs, KBody, KDecoratorList, KPosition, KDocstring})
    case Module(_) => Row("Definitions", "Module", {KBody, KPosition, KDocstring})
  }

  /** The kinds whose serialization never succeeds: a kind without a
      `visit_` method (set comprehensions, whose method is overwritten by the
      second `visit_ListComp`, and every kind outside the union) and the
      methods that always fail — `visit_Slice` calls `hasattr` with its
      arguments swapped, and `visit_comprehension`, `visit_Print`,
      `visit_Assert` and `visit_With` read an attribute their node kind
      never has. */
  predicate AlwaysFails(k: Kind) {
    k.SetComp? || k.Other? || k.Slice? || k.comprehension? || k.Print? || k.Assert? || k.With?
  }

  /** Every kind that can serialize carries a `docstring` member, except a
      number. */
  lemma DocstringListed(k: Kind)
    requires !AlwaysFails(k)
    ensures KDocstring in RowOf(k).members <==> !k.Num?
  {
  }

  /** Every kind that can serialize carries a `position` member, except the
      four that describe parts of a construct rather than code at a line: a
      keyword argument, an imported name, a parameter list and a parameter. */
  lemma PositionListed(k: Kind)
    requires !AlwaysFails(k)
    ensures KPosition in RowOf(k).members <==> !(k.keyword? || k.alias? || k.arguments? || k.arg?)
  {
  }

  /** `ast.get_docstring(node)` with the indentation clean-up left out: the
      text of a leading string-literal statement, or null. */
  function DocstringOf(body: seq<Node>): (r: Json)
    ensures r.Null? || r.String?
    ensures r.String? <==> |body| > 0 && body[0].kind.Expr? && body[0].kind.value.Some?
                           && body[0].kind.value.value.kind.Str? && body[0].kind.value.value.kind.s.Some?
    ensures r.String? ==> r.s == body[0].kind.value.value.kind.s.value
  {
    if body == [] then Null
    else
      match body[0].kind
      case Expr(Some(Node(Str(Some(text)), _))) => String(text)
      case _ => Null
  }

  /** The `docstring` member's value, for the kinds whose row lists one:
      the docstring of a function, class or module body, false for the
      rest. */
  function DocstringValue(k: Kind): Json {
    if k.FunctionDef? || k.ClassDef? || k.Module? then DocstringOf(k.body) else Bool(false)
  }

  /** The `position` member's value. */
  function Position(line: Json): Json {
    Object(map[KLine := line])
  }

  /** The `position` member's value, for the kinds whose row lists one: the
      node's line number (null when a literal or a variable has none), and
      line 0 for a module. */
  function PositionOf(n: Node): Json {
    Position(if n.kind.Module? then Number(0) else if n.lineno.Some? then Number(n.lineno.value) else Null)
  }

  /** `j` is laid out as the tables above prescribe for node `n`. */
  predicate Shaped(n: Node, j: Json) {
    ShapedBy(RowOf(n.kind), n, j)
  }

  /** `j` carries exactly the members of `row` besides `expr` and `type`,
      with the row's category and tag, and with the position and docstring
      of node `n` when the row lists them. */
  predicate ShapedBy(row: Row, n: Node, j: Json) {
    && Keys(j) == {KExpr, KType} + row.members
    && Get(j, KExpr) == Some(String(row.category))
    && Get(j, KType) == Some(String(row.typeTag))
    && (KPosition in row.members ==> Get(j, KPosition) == Some(PositionOf(n)))
    && (KDocstring in row.members ==> Get(j, KDocstring) == Some(DocstringValue(n.kind)))
  }
}
