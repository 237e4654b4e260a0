/** The tree serializer (`ASTSerializer` in Serializer.py): one function per
    `visit_<Kind>` method, each building the JSON object its dict literal
    builds, and the dispatch `Serialize` that picks the method by node kind
    and visits the node's children.

    Where the source fails — it visits `None`, reads an attribute the node
    does not have, maps over something that is not a list, calls `hasattr`
    with its arguments swapped, or leaves a native node in the output — the
    model returns `Err`. A kind without a `visit_` method, which the source
    passes through unchanged (`NodeTransformer.generic_visit`) until JSON
    rendering rejects it, is the error `Unhandled`.

    Each visit function receives, for every child attribute its method
    visits, the outcome of visiting that child, and consumes those outcomes
    in the order of its dict literal; the error it returns is therefore the
    first failure the method meets. Visiting has no side effects, so handing
    a method its children's outcomes is the same as the method visiting them
    itself. */
module Serializer {
  import opened Results
  import opened JsonValue
  import opened PyAst
  import opened Layout
  import opened SerializerBase
  import opened Visitors

  // -------- visiting children

  /** `self.visit(node.attr)` read directly: visiting None fails. */
  function Visit(cfg: Config, child: Option<Node>, kind: string, attr: string): (r: Result<Json, Error>)
    decreases child
    ensures child.None? ==> r == Err(VisitNone(kind, attr))
    ensures child.Some? ==> r == Serialize(cfg, child.value)
  {
    match child
    case None => Err(VisitNone(kind, attr))
    case Some(x) => Serialize(cfg, x)
  }

  /** `guard(node, attr, f = self.visit)`, and equally
      `self.visit(node.attr) if node.attr is not None else None`. */
  function GuardNode(cfg: Config, child: Option<Node>): (r: Result<Json, Error>)
    decreases child
    ensures child.None? ==> r == Ok(Null)
    ensures child.Some? ==> r == Serialize(cfg, child.value)
  {
    match child
    case None => Ok(Null)
    case Some(x) => Serialize(cfg, x)
  }

  /** `self.visit(node.attr) if hasattr(node, attr) else None`: an absent
      attribute gives null, a None one fails. */
  function VisitPresent(cfg: Config, child: Option<Option<Node>>, kind: string, attr: string): (r: Result<Json, Error>)
    decreases child
    ensures child.None? ==> r == Ok(Null)
    ensures child.Some? ==> r == Visit(cfg, child.value, kind, attr)
  {
    match child
    case None => Ok(Null)
    case Some(c) => Visit(cfg, c, kind, attr)
  }

  /** `self.visit(node.attr) if node.attr is not None else None` on an
      attribute that is an identifier in one grammar generation and a node
      in the other: None gives null, a node is serialized, and an identifier
      string fails, as it has no fields for `generic_visit` to walk. */
  function VisitIdOrNode(cfg: Config, x: IdOrNode, kind: string, attr: string): (r: Result<Json, Error>)
    decreases x
    ensures x.NoId? ==> r == Ok(Null)
    ensures x.Id? ==> r == Err(NotANode(kind, attr))
    ensures x.IdNode? ==> r == Serialize(cfg, x.node)
  {
    match x
    case NoId => Ok(Null)
    case Id(_) => Err(NotANode(kind, attr))
    case IdNode(m) => Serialize(cfg, m)
  }

  /** `map(self.visit, xs)`: every element serialized, in order; the first
      failure in list order is the result's failure. */
  function VisitAll(cfg: Config, xs: seq<Node>): (r: Result<seq<Json>, Error>)
    decreases xs
    ensures r.Ok? <==> forall i :: 0 <= i < |xs| ==> Serialize(cfg, xs[i]).Ok?
    ensures r.Ok? ==> (|r.value| == |xs| &&
      forall i :: 0 <= i < |xs| ==> Serialize(cfg, xs[i]) == Ok(r.value[i]))
    ensures r.Err? ==> exists i :: (0 <= i < |xs| && Serialize(cfg, xs[i]) == Err(r.error) &&
      forall k :: 0 <= k < i ==> Serialize(cfg, xs[k]).Ok?)
  {
    if xs == [] then Ok([])
    else
      var head :- Serialize(cfg, xs[0]);
      var tail :- VisitAll(cfg, xs[1..]);
      Ok([head] + tail)
  }

  /** `map(self.visit, xs)` over a list whose entries may be None (dict keys
      of a `**` entry, missing keyword-only defaults): a None entry fails. */
  function VisitSlots(cfg: Config, xs: seq<Option<Node>>, kind: string, attr: string): (r: Result<seq<Json>, Error>)
    decreases xs
    ensures r.Ok? <==> forall i :: 0 <= i < |xs| ==> xs[i].Some? && Visit(cfg, xs[i], kind, attr).Ok?
    ensures r.Ok? ==> (|r.value| == |xs| &&
      forall i :: 0 <= i < |xs| ==> xs[i].Some? && Visit(cfg, xs[i], kind, attr) == Ok(r.value[i]))
  {
    if xs == [] then Ok([])
    else
      var head :- Visit(cfg, xs[0], kind, attr);
      var tail :- VisitSlots(cfg, xs[1..], kind, attr);
      Ok([head] + tail)
  }

  /** `guard(node, attr, lambda x: map(self.visit, x))`, before rendering:
      none when the attribute is missing. */
  function GuardList(cfg: Config, xs: OptNodes): (r: Result<Option<seq<Json>>, Error>)
    decreases xs
    ensures xs.NoNodes? ==> r == Ok(None)
    ensures xs.SomeNodes? ==> (r.Ok? <==> forall i :: 0 <= i < |xs.nodes| ==> Serialize(cfg, xs.nodes[i]).Ok?)
    ensures xs.SomeNodes? && r.Ok? ==> (r.value.Some? && |r.value.value| == |xs.nodes| &&
      forall i :: 0 <= i < |xs.nodes| ==> Serialize(cfg, xs.nodes[i]) == Ok(r.value.value[i]))
  {
    match xs
    case NoNodes => Ok(None)
    case SomeNodes(items) =>
      var js :- VisitAll(cfg, items);
      Ok(Some(js))
  }

  /** `guard(node, attr, lambda x: map(self.visit, x))` over a list whose
      entries may be None: none when the attribute is missing. */
  function GuardSlots(cfg: Config, xs: OptSlots, kind: string, attr: string)
    : (r: Result<Option<seq<Json>>, Error>)
    decreases xs
    ensures xs.NoSlots? ==> r == Ok(None)
    ensures xs.SomeSlots? ==> (r.Ok? <==> forall i :: 0 <= i < |xs.slots| ==>
      xs.slots[i].Some? && Visit(cfg, xs.slots[i], kind, attr).Ok?)
    ensures xs.SomeSlots? && r.Ok? ==> (r.value.Some? && |r.value.value| == |xs.slots| &&
      forall i :: 0 <= i < |xs.slots| ==> xs.slots[i].Some? && Visit(cfg, xs.slots[i], kind, attr) == Ok(r.value.value[i]))
  {
    match xs
    case NoSlots => Ok(None)
    case SomeSlots(items) =>
      var js :- VisitSlots(cfg, items, kind, attr);
      Ok(Some(js))
  }

  // -------- dispatch (NodeTransformer.visit)

  /** `ASTSerializer().visit(node)`: the `visit_` method of the node's kind,
      given the outcomes of visiting the children it visits (directly, through
      `guard`, or through `map`). A kind without a method is `Unhandled`.
      Every object produced has the layout `Shaped` prescribes
      (`SerializeShaped`). */
  function Serialize(cfg: Config, n: Node): (r: Result<Json, Error>)
    decreases n, 1
  {
    match SectionOf(n.kind)
    case Literals => SerializeLiteral(cfg, n)
    case Variables => SerializeVariable(cfg, n)
    case Expressions => SerializeExpression(cfg, n)
    case Subscripting => SerializeSubscript(cfg, n)
    case Comprehensions => SerializeComprehension(cfg, n)
    case Statements => SerializeStatement(cfg, n)
    case Imports => SerializeImport(cfg, n)
    case ControlFlow => SerializeControlFlow(cfg, n)
    case Definitions => SerializeDefinition(cfg, n)
    case Unknown => Err(Unhandled(n.kind.kindName))
  }

  /** The dispatch on the kinds of the literals section. */
  function SerializeLiteral(cfg: Config, n: Node): (r: Result<Json, Error>)
    requires SectionOf(n.kind) == Literals
    decreases n, 0
  {
    match n.kind
    case Num(_) => Ok(VisitNum(n))
    case Str(_) => Ok(VisitStr(n))
    case Bytes(_) => Ok(VisitBytes(n))
    case List(elts) => VisitList(n, GuardList(cfg, elts))
    case Tuple(elts) => VisitTuple(n, GuardList(cfg, elts))
    case Set(elts) => VisitSet(n, GuardList(cfg, elts))
    case Dict(keys, values) => VisitDict(n, GuardSlots(cfg, keys, "Dict", "keys"), GuardList(cfg, values))
    case Ellipsis => Ok(VisitEllipsis(n))
    case NameConstant(_) => Ok(VisitNameConstant(n))
  }

  /** The dispatch on the kinds of the variables section. */
  function SerializeVariable(cfg: Config, n: Node): (r: Result<Json, Error>)
    requires SectionOf(n.kind) == Variables
    decreases n, 0
  {
    match n.kind
    case Name(_) => Ok(VisitName(n))
    case Starred(value) => VisitStarred(n, GuardNode(cfg, value))
  }

  /** The dispatch on the kinds of the expressions section. */
  function SerializeExpression(cfg: Config, n: Node): (r: Result<Json, Error>)
    requires SectionOf(n.kind) == Expressions
    decreases n, 0
  {
    match n.kind
    case Expr(value) => VisitExpr(n, GuardNode(cfg, value))
    case UnaryOp(_, operand) => VisitUnaryOp(n, GuardNode(cfg, operand))
    case BinOp(_, left, right) => VisitBinOp(n, GuardNode(cfg, left), GuardNode(cfg, right))
    case BoolOp(_, values) => VisitBoolOp(n, GuardList(cfg, values))
    case Compare(left, _, comparators) => VisitCompare(n, GuardNode(cfg, left), GuardList(cfg, comparators))
    case Call(_, args, keywords, _, _) => VisitCall(n, GuardList(cfg, args), GuardList(cfg, keywords))
    case keyword(_, value) => VisitKeyword(n, GuardNode(cfg, value))
    case IfExp(test, bodyExpr, orelseExpr) =>
      VisitIfExp(n, GuardNode(cfg, test), GuardNode(cfg, bodyExpr), GuardNode(cfg, orelseExpr))
    case Attribute(value, _) => VisitAttribute(n, GuardNode(cfg, value))
  }

  /** The dispatch on the kinds of the subscripting section. */
  function SerializeSubscript(cfg: Config, n: Node): (r: Result<Json, Error>)
    requires SectionOf(n.kind) == Subscripting
    decreases n, 0
  {
    match n.kind
    case Subscript(value, slice) =>
      VisitSubscript(n, Visit(cfg, value, "Subscript", "value"), Visit(cfg, slice, "Subscript", "slice"))
    case Slice(lower, _, _) => VisitSlice(n, Visit(cfg, lower, "Slice", "lower"))
    case Index(value) => VisitIndex(n, Visit(cfg, value, "Index", "value"))
    case ExtSlice(dims) => VisitExtSlice(n, VisitAll(cfg, dims))
  }

  /** The dispatch on the kinds of the comprehensions section. */
  function SerializeComprehension(cfg: Config, n: Node): (r: Result<Json, Error>)
    requires SectionOf(n.kind) == Comprehensions
    decreases n, 0
  {
    match n.kind
    case ListComp(elt, generators) =>
      VisitListComp(n, Visit(cfg, elt, "ListComp", "elt"), VisitAll(cfg, generators))
    case SetComp(_, _) => Err(Unhandled("SetComp"))
    case GeneratorExp(elt, generators) =>
      VisitGeneratorExp(n, Visit(cfg, elt, "GeneratorExp", "elt"), VisitAll(cfg, generators))
    case DictComp(key, value, generators) =>
      VisitDictComp(n, Visit(cfg, key, "DictComp", "key"), Visit(cfg, value, "DictComp", "value"),
                    VisitAll(cfg, generators))
    case comprehension(_, _, _) => VisitComprehension(n)
  }

  /** The dispatch on the kinds of the statements section. */
  function SerializeStatement(cfg: Config, n: Node): (r: Result<Json, Error>)
    requires SectionOf(n.kind) == Statements
    decreases n, 0
  {
    match n.kind
    case Assign(targets, value) => VisitAssign(n, VisitAll(cfg, targets), Visit(cfg, value, "Assign", "value"))
    case AugAssign(target, _, value) =>
      VisitAugAssign(n, Visit(cfg, target, "AugAssign", "target"), Visit(cfg, value, "AugAssign", "value"))
    case Print(dest, _, _) => VisitPrint(n, Visit(cfg, dest, "Print", "dest"))
    case Assert(_, _) => VisitAssert(n)
    case Raise(exc, cause) => VisitRaise(cfg, n, Visit(cfg, exc, "Raise", "exc"), GuardNode(cfg, cause))
    case RaiseLegacy(exnType, inst, tback) =>
      VisitRaiseLegacy(cfg, n, Visit(cfg, exnType, "Raise", "type"), Visit(cfg, inst, "Raise", "inst"),
                       Visit(cfg, tback, "Raise", "tback"))
    case Delete(targets) => VisitDelete(n, VisitAll(cfg, targets))
    case Pass => VisitPass(n)
  }

  /** The dispatch on the kinds of the imports section. */
  function SerializeImport(cfg: Config, n: Node): (r: Result<Json, Error>)
    requires SectionOf(n.kind) == Imports
    decreases n, 0
  {
    match n.kind
    case Import(names) => VisitImport(n, VisitAll(cfg, names))
    case ImportFrom(_, names, _) => VisitImportFrom(n, VisitAll(cfg, names))
    case alias(_, _) => Ok(VisitAlias(n))
  }

  /** The dispatch on the kinds of the control flow section. */
  function SerializeControlFlow(cfg: Config, n: Node): (r: Result<Json, Error>)
    requires SectionOf(n.kind) == ControlFlow
    decreases n, 0
  {
    match n.kind
    case If(test, body, orelse) =>
      VisitIf(n, Visit(cfg, test, "If", "test"), VisitAll(cfg, body), VisitAll(cfg, orelse))
    case For(target, iter, body, orelse) =>
      VisitFor(n, Visit(cfg, target, "For", "target"), Visit(cfg, iter, "For", "iter"),
               VisitAll(cfg, body), VisitAll(cfg, orelse))
    case While(test, body, orelse) =>
      VisitWhile(n, Visit(cfg, test, "While", "test"), VisitAll(cfg, body), VisitAll(cfg, orelse))
    case Break => VisitBreak(n)
    case Continue => VisitContinue(n)
    case Try(body, handlers, orelse, finalbody) =>
      VisitTry(n, VisitAll(cfg, body), VisitAll(cfg, handlers), VisitAll(cfg, orelse), VisitAll(cfg, finalbody))
    case TryFinally(body, finalbody) => VisitTryFinally(n, VisitAll(cfg, body), VisitAll(cfg, finalbody))
    case TryExcept(body, handlers, orelse) =>
      VisitTryExcept(n, VisitAll(cfg, body), VisitAll(cfg, handlers), VisitAll(cfg, orelse))
    case ExceptHandler(exnType, _, body) =>
      VisitExceptHandler(n, Visit(cfg, exnType, "ExceptHandler", "type"), VisitAll(cfg, body))
    case With(_, _) => VisitWith(n)
    case withitem(contextExpr, _) => VisitWithitem(n, Visit(cfg, contextExpr, "withitem", "context_expr"))
  }

  /** The dispatch on the kinds of the function and module definitions section. */
  function SerializeDefinition(cfg: Config, n: Node): (r: Result<Json, Error>)
    requires SectionOf(n.kind) == Definitions
    decreases n, 0
  {
    match n.kind
    case FunctionDef(_, signature, body, decoratorList, returnAnnotation) =>
      VisitFunctionDef(n, Visit(cfg, signature, "FunctionDef", "args"), VisitAll(cfg, body),
                       VisitAll(cfg, decoratorList), VisitPresent(cfg, returnAnnotation, "FunctionDef", "returns"))
    case Lambda(signature, bodyExpr) =>
      VisitLambda(n, Visit(cfg, signature, "Lambda", "args"), Visit(cfg, bodyExpr, "Lambda", "body"))
    case arguments(params, kwonlyargs, vararg, kwarg, defaults, kwDefaults) =>
      VisitArguments(n, VisitAll(cfg, params), GuardList(cfg, kwonlyargs), VisitIdOrNode(cfg, vararg, "arguments", "vararg"),
                     VisitIdOrNode(cfg, kwarg, "arguments", "kwarg"), VisitAll(cfg, defaults),
                     GuardSlots(cfg, kwDefaults, "arguments", "kw_defaults"))
    case arg(_, annotation) => VisitArg(n, Visit(cfg, annotation, "arg", "annotation"))
    case Return(value) => VisitReturn(n, Visit(cfg, value, "Return", "value"))
    case Yield(value) => VisitYield(n, Visit(cfg, value, "Yield", "value"))
    case YieldFrom(value) => VisitYieldFrom(n, Visit(cfg, value, "YieldFrom", "value"))
    case Global(_) => VisitGlobal(n)
    case Nonlocal(_) => VisitNonlocal(n)
    case ClassDef(_, bases, keywords, starargs, kwargs, body, decoratorList) =>
      VisitClassDef(n, VisitAll(cfg, bases), GuardList(cfg, keywords),
                    VisitPresent(cfg, starargs, "ClassDef", "starargs"), VisitPresent(cfg, kwargs, "ClassDef", "kwargs"),
                    VisitAll(cfg, body), VisitAll(cfg, decoratorList))
    case Module(body) => VisitModule(n, VisitAll(cfg, body))
  }

  // -------- the layout of every object produced

  // One lemma per section: what a section's dispatch produces is laid out as
  // the section's table prescribes, and the section's kinds without a
  // working method fail.

  lemma LiteralLayout(cfg: Config, n: Node)
    requires SectionOf(n.kind) == Literals
    ensures var r := SerializeLiteral(cfg, n); r.Ok? ==> ShapedBy(LiteralRow(n.kind), n, r.value)
  {
  }

  lemma VariableLayout(cfg: Config, n: Node)
    requires SectionOf(n.kind) == Variables
    ensures var r := SerializeVariable(cfg, n); r.Ok? ==> ShapedBy(VariableRow(n.kind), n, r.value)
  {
  }

  lemma ExpressionLayout(cfg: Config, n: Node)
    requires SectionOf(n.kind) == Expressions
    ensures var r := SerializeExpression(cfg, n); r.Ok? ==> ShapedBy(ExpressionRow(n.kind), n, r.value)
  {
  }

  lemma SubscriptLayout(cfg: Config, n: Node)
    requires SectionOf(n.kind) == Subscripting
    ensures var r := SerializeSubscript(cfg, n); r.Ok? ==> ShapedBy(SubscriptRow(n.kind), n, r.value)
    ensures AlwaysFails(n.kind) ==> SerializeSubscript(cfg, n).Err?
  {
  }

  lemma ComprehensionLayout(cfg: Config, n: Node)
    requires SectionOf(n.kind) == Comprehensions
    ensures var r := SerializeComprehension(cfg, n); r.Ok? ==> ShapedBy(ComprehensionRow(n.kind), n, r.value)
    ensures AlwaysFails(n.kind) ==> SerializeComprehension(cfg, n).Err?
  {
  }

  lemma StatementLayout(cfg: Config, n: Node)
    requires SectionOf(n.kind) == Statements
    ensures var r := SerializeStatement(cfg, n); r.Ok? ==> ShapedBy(StatementRow(n.kind), n, r.value)
    ensures AlwaysFails(n.kind) ==> SerializeStatement(cfg, n).Err?
  {
  }

  lemma ImportLayout(cfg: Config, n: Node)
    requires SectionOf(n.kind) == Imports
    ensures var r := SerializeImport(cfg, n); r.Ok? ==> ShapedBy(ImportRow(n.kind), n, r.value)
  {
  }

  lemma ControlFlowLayout(cfg: Config, n: Node)
    requires SectionOf(n.kind) == ControlFlow
    ensures var r := SerializeControlFlow(cfg, n); r.Ok? ==> ShapedBy(ControlFlowRow(n.kind), n, r.value)
    ensures AlwaysFails(n.kind) ==> SerializeControlFlow(cfg, n).Err?
  {
  }

  lemma DefinitionLayout(cfg: Config, n: Node)
    requires SectionOf(n.kind) == Definitions
    ensures var r := SerializeDefinition(cfg, n); r.Ok? ==> ShapedBy(DefinitionRow(n.kind), n, r.value)
  {
  }

  /** Every object `Serialize` produces is laid out as its kind's row
      prescribes. */
  lemma {:induction false} SerializeShaped(cfg: Config, n: Node)
    ensures var r := Serialize(cfg, n); r.Ok? ==> Shaped(n, r.value)
  {
    match SectionOf(n.kind)
    case Literals => LiteralLayout(cfg, n);
    case Variables => VariableLayout(cfg, n);
    case Expressions => ExpressionLayout(cfg, n);
    case Subscripting => SubscriptLayout(cfg, n);
    case Comprehensions => ComprehensionLayout(cfg, n);
    case Statements => StatementLayout(cfg, n);
    case Imports => ImportLayout(cfg, n);
    case ControlFlow => ControlFlowLayout(cfg, n);
    case Definitions => DefinitionLayout(cfg, n);
    case Unknown =>
  }

  /** The kinds without a working `visit_` method never serialize. */
  lemma {:induction false} SerializeAlwaysFails(cfg: Config, n: Node)
    ensures AlwaysFails(n.kind) ==> Serialize(cfg, n).Err?
  {
    match SectionOf(n.kind)
    case Subscripting => SubscriptLayout(cfg, n);
    case Comprehensions => ComprehensionLayout(cfg, n);
    case Statements => StatementLayout(cfg, n);
    case ControlFlow => ControlFlowLayout(cfg, n);
    case _ =>
  }
}
