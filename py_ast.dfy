/** The native tree the external parser produces, restricted to what the
    serializer reads. Node kinds of both grammar generations the serializer
    meets (the Python 2 one with `Print`, `TryExcept`, `TryFinally` and the
    three-field `Raise`; the Python 3 one with `Try`, `Starred`, `withitem`,
    `arg`, `YieldFrom`, `Nonlocal`, `Bytes`, `NameConstant` and the two-field
    `Raise`) share one closed union.

    Conventions for attribute slots:
    - `Option<Node>`: a child that may be `None`; visiting it directly with
      `self.visit` then fails.
    - an attribute the source reads through `guard` is an `Option` whose
      `None` stands for "absent or None", the two cases `guard` does not
      distinguish.
    - `Option<Option<Node>>`: an attribute the source tests with `hasattr`;
      the outer `None` is "the node has no such attribute", the inner one is
      a `None` value.
    - `OptNodes`/`OptSlots`: a list attribute the source reads through
      `guard` or after a `hasattr` test, which may be missing.
    - `IdOrNode`: an attribute whose type differs between the two grammar
      generations.
    Python attribute names that clash with Dafny keywords or with a field of
    another type elsewhere in the union are renamed: `value` of
    NameConstant is `constant`, `module` of ImportFrom is `moduleName`,
    `type` of Raise (Python 2) and ExceptHandler is `exnType`, `name` of
    ExceptHandler is `boundName`, `values` of Print is `printValues`,
    `body`/`orelse` of IfExp are `bodyExpr`/`orelseExpr`, `body` of Lambda is
    `bodyExpr`, `args` of FunctionDef and Lambda is `signature`, `args` of
    arguments is `params`, `kw_defaults` is `kwDefaults`, `decorator_list` is
    `decoratorList`, `returns` is `returnAnnotation`, `names` of Global and
    Nonlocal is `identifiers`, `arg` of arg is `name`, `context_expr` and
    `optional_vars` of withitem are `contextExpr` and `optionalVars`. */
module PyAst {
  import opened Results

  /** A node: its kind with the kind's attributes, and its `lineno`
      attribute (`None` when the node carries no line number). */
  datatype Node = Node(kind: Kind, lineno: Option<int>)

  /** A list of nodes that may be missing (absent or None). */
  datatype OptNodes = NoNodes | SomeNodes(nodes: seq<Node>)

  /** A list whose entries may be None (dict keys, keyword-only defaults),
      itself possibly missing. */
  datatype OptSlots = NoSlots | SomeSlots(slots: seq<Option<Node>>)

  /** An attribute that holds an identifier in one grammar generation and a
      node in the other, or None: the bound name of an exception handler (a
      node in Python 2, an identifier in Python 3) and the `vararg`/`kwarg`
      of a parameter list (an identifier in Python 2, an `arg` node in
      Python 3). */
  datatype IdOrNode = NoId | Id(text: string) | IdNode(node: Node)

  datatype Kind =
    // ---- literals
    | Num(n: Option<int>)
    | Str(s: Option<string>)
    | Bytes(s: Option<string>)
    | List(elts: OptNodes)
    | Tuple(elts: OptNodes)
    | Set(elts: OptNodes)
    | Dict(keys: OptSlots, values: OptNodes)
    | Ellipsis
    | NameConstant(constant: Option<bool>)
    // ---- variables
    | Name(id: Option<string>)
    | Starred(value: Option<Node>)
    // ---- expressions
    | Expr(value: Option<Node>)
    | UnaryOp(op: Option<Op>, operand: Option<Node>)
    | BinOp(op: Option<Op>, left: Option<Node>, right: Option<Node>)
    | BoolOp(op: Option<Op>, values: OptNodes)
    | Compare(left: Option<Node>, ops: Option<seq<Op>>, comparators: OptNodes)
    | Call(func: Option<Node>, args: OptNodes, keywords: OptNodes,
           starargs: Option<Option<Node>>, kwargs: Option<Option<Node>>)
    | keyword(arg: Option<string>, value: Option<Node>)
    | IfExp(test: Option<Node>, bodyExpr: Option<Node>, orelseExpr: Option<Node>)
    | Attribute(value: Option<Node>, attr: Option<string>)
    // ---- subscripting
    | Subscript(value: Option<Node>, slice: Option<Node>)
    | Slice(lower: Option<Node>, upper: Option<Node>, step: Option<Node>)
    | Index(value: Option<Node>)
    | ExtSlice(dims: seq<Node>)
    // ---- comprehensions
    | ListComp(elt: Option<Node>, generators: seq<Node>)
    | SetComp(elt: Option<Node>, generators: seq<Node>)
    | GeneratorExp(elt: Option<Node>, generators: seq<Node>)
    | DictComp(key: Option<Node>, value: Option<Node>, generators: seq<Node>)
    | comprehension(target: Option<Node>, iter: Option<Node>, ifs: seq<Node>)
    // ---- statements
    | Assign(targets: seq<Node>, value: Option<Node>)
    | AugAssign(target: Option<Node>, op: Option<Op>, value: Option<Node>)
    | Print(dest: Option<Node>, printValues: seq<Node>, nl: bool)
    | Assert(test: Option<Node>, msg: Option<Node>)
    | Raise(exc: Option<Node>, cause: Option<Node>)
    | RaiseLegacy(exnType: Option<Node>, inst: Option<Node>, tback: Option<Node>)
    | Delete(targets: seq<Node>)
    | Pass
    // ---- imports
    | Import(names: seq<Node>)
    | ImportFrom(moduleName: Option<string>, names: seq<Node>, level: Option<int>)
    | alias(name: string, asname: Option<string>)
    // ---- control flow
    | If(test: Option<Node>, body: seq<Node>, orelse: seq<Node>)
    | For(target: Option<Node>, iter: Option<Node>, body: seq<Node>, orelse: seq<Node>)
    | While(test: Option<Node>, body: seq<Node>, orelse: seq<Node>)
    | Break
    | Continue
    | Try(body: seq<Node>, handlers: seq<Node>, orelse: seq<Node>, finalbody: seq<Node>)
    | TryFinally(body: seq<Node>, finalbody: seq<Node>)
    | TryExcept(body: seq<Node>, handlers: seq<Node>, orelse: seq<Node>)
    | ExceptHandler(exnType: Option<Node>, boundName: IdOrNode, body: seq<Node>)
    | With(items: seq<Node>, body: seq<Node>)
    | withitem(contextExpr: Option<Node>, optionalVars: Option<Node>)
    // ---- definitions
    | FunctionDef(name: string, signature: Option<Node>, body: seq<Node>, decoratorList: seq<Node>,
                  returnAnnotation: Option<Option<Node>>)
    | Lambda(signature: Option<Node>, bodyExpr: Option<Node>)
    | arguments(params: seq<Node>, kwonlyargs: OptNodes, vararg: IdOrNode,
                kwarg: IdOrNode, defaults: seq<Node>, kwDefaults: OptSlots)
    | arg(name: string, annotation: Option<Node>)
    | Return(value: Option<Node>)
    | Yield(value: Option<Node>)
    | YieldFrom(value: Option<Node>)
    | Global(identifiers: seq<string>)
    | Nonlocal(identifiers: seq<string>)
    | ClassDef(name: string, bases: seq<Node>, keywords: OptNodes,
               starargs: Option<Option<Node>>, kwargs: Option<Option<Node>>,
               body: seq<Node>, decoratorList: seq<Node>)
    | Module(body: seq<Node>)
    // ---- every other native kind (AsyncFunctionDef, Await, Exec, Repr, ...)
    | Other(kindName: string)

  /** The sections Serializer.py groups its visit methods into. */
  datatype Section =
    | Literals | Variables | Expressions | Subscripting | Comprehensions
    | Statements | Imports | ControlFlow | Definitions | Unknown

  function SectionOf(k: Kind): Section {
    match k
    case Num(_) | Str(_) | Bytes(_) | List(_) | Tuple(_) | Set(_) | Dict(_, _)
      | Ellipsis | NameConstant(_) => Literals
    case Name(_) | Starred(_) => Variables
    case Expr(_) | UnaryOp(_, _) | BinOp(_, _, _) | BoolOp(_, _) | Compare(_, _, _)
      | Call(_, _, _, _, _) | keyword(_, _) | IfExp(_, _, _) | Attribute(_, _) => Expressions
    case Subscript(_, _) | Slice(_, _, _) | Index(_) | ExtSlice(_) => Subscripting
    case ListComp(_, _) | SetComp(_, _) | GeneratorExp(_, _) | DictComp(_, _, _)
      | comprehension(_, _, _) => Comprehensions
    case Assign(_, _) | AugAssign(_, _, _) | Print(_, _, _) | Assert(_, _) | Raise(_, _)
      | RaiseLegacy(_, _, _) | Delete(_) | Pass => Statements
    case Import(_) | ImportFrom(_, _, _) | alias(_, _) => Imports
    case If(_, _, _) | For(_, _, _, _) | While(_, _, _) | Break | Continue
      | Try(_, _, _, _) | TryFinally(_, _) | TryExcept(_, _, _) | ExceptHandler(_, _, _)
      | With(_, _) | withitem(_, _) => ControlFlow
    case FunctionDef(_, _, _, _, _) | Lambda(_, _) | arguments(_, _, _, _, _, _) | arg(_, _)
      | Return(_) | Yield(_) | YieldFrom(_) | Global(_) | Nonlocal(_)
      | ClassDef(_, _, _, _, _, _, _) | Module(_) => Definitions
    case Other(_) => Unknown
  }

  /** Operator leaves. */
  datatype Op =
    | UAdd | USub | Not | Invert
    | Add | Sub | Mult | MatMult | Div | FloorDiv | Mod | Pow
    | LShift | RShift | BitOr | BitXor | BitAnd
    | And | Or
    | Eq | NotEq | Lt | LtE | Gt | GtE | Is | IsNot | In | NotIn

  /** The native class name of an operator. */
  function OpName(o: Op): string {
    match o
    case UAdd => "UAdd"       case USub => "USub"     case Not => "Not"
    case Invert => "Invert"   case Add => "Add"       case Sub => "Sub"
    case Mult => "Mult"       case MatMult => "MatMult"
    case Div => "Div"         case FloorDiv => "FloorDiv"
    case Mod => "Mod"         case Pow => "Pow"       case LShift => "LShift"
    case RShift => "RShift"   case BitOr => "BitOr"   case BitXor => "BitXor"
    case BitAnd => "BitAnd"   case And => "And"       case Or => "Or"
    case Eq => "Eq"           case NotEq => "NotEq"   case Lt => "Lt"
    case LtE => "LtE"         case Gt => "Gt"         case GtE => "GtE"
    case Is => "Is"           case IsNot => "IsNot"   case In => "In"
    case NotIn => "NotIn"
  }
}
