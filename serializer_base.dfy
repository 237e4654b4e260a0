module SerializerBase {
  import opened Results
  import opened JsonValue
  import opened PyAst
  import opened Layout

  /** Which of the two `Raise` layouts (Serializer.py:428-451) the serializer
      produces: the `exc`/`cause` one or the `excType`/`inst`/`tback` one. */
  datatype RaiseShape = ExcCause | TypeInstTback

  datatype Config = Config(raiseShape: RaiseShape)

  datatype Error =
    | Unhandled(kind: string)                  // no visit_ method: the native node would be passed through
    | NoAttribute(kind: string, attr: string)  // `node.attr` on a node without that attribute
    | VisitNone(kind: string, attr: string)    // `self.visit(node.attr)` with the attribute None
    | NotIterable(kind: string, attr: string)  // `map`/`zip` over something that is not a list
    | BadHasattr(kind: string, attr: string)   // `hasattr` called with its two arguments swapped
    | RawNode(kind: string, attr: string)      // a native node placed in the output unserialized
    | NotANode(kind: string, attr: string)     // `self.visit` of an identifier string, which has no fields

  // -------- utilities (Serializer.py:15-20)

  /** `guard(node, accessor, f)`: `f` of the attribute when it is present and
      not None, and null otherwise. */
  function Guard<T>(attr: Option<T>, f: T -> Result<Json, Error>): (r: Result<Json, Error>)
    ensures attr.None? ==> r == Ok(Null)
    ensures attr.Some? ==> r == f(attr.value)
  {
    match attr
    case None => Ok(Null)
    case Some(v) => f(v)
  }

  /** `guard(node, attr)` with the default identity `f` on a scalar
      attribute, and equally a scalar attribute read directly (`node.module`,
      `node.asname`, ...): the value, or null for None. */
  function NullableString(s: Option<string>): Json {
    if s.Some? then String(s.value) else Null
  }

  function NullableNumber(i: Option<int>): Json {
    if i.Some? then Number(i.value) else Null
  }

  function NullableBool(b: Option<bool>): Json {
    if b.Some? then Bool(b.value) else Null
  }

  /** The result of a guarded `map`: the list, or null when the attribute is missing. */
  function ArrayOrNull(items: Option<seq<Json>>): Json {
    if items.Some? then Array(items.value) else Null
  }

  function Strings(ids: seq<string>): (r: seq<Json>)
    ensures |r| == |ids|
    ensures forall i :: 0 <= i < |ids| ==> r[i] == String(ids[i])
  {
    if ids == [] then [] else [String(ids[0])] + Strings(ids[1..])
  }

  /** Python 2's `zip`: pairs (rendered as two-element arrays) up to the
      shorter list. */
  function Zip(ks: seq<Json>, vs: seq<Json>): (r: seq<Json>)
    ensures |r| == if |ks| <= |vs| then |ks| else |vs|
    ensures forall i :: 0 <= i < |r| ==> r[i] == Array([ks[i], vs[i]])
  {
    if ks == [] || vs == [] then [] else [Array([ks[0], vs[0]])] + Zip(ks[1..], vs[1..])
  }

  // -------- operators (Serializer.py:786-840)

  /** The symbol each operator's `visit_` method returns; none for the
      operators without a handler (`visit_isNot` does not match `IsNot`). */
  function OpSymbol(o: Op): (r: Option<string>)
    ensures r.None? <==> o == MatMult || o == IsNot
    ensures r.Some? ==> |r.value| > 0
  {
    match o
    case UAdd => Some("+")      case USub => Some("-")     case Not => Some("!")
    case Invert => Some("~")    case Add => Some("+")      case Sub => Some("-")
    case Mult => Some("*")      case MatMult => None
    case Div => Some("/")       case FloorDiv => Some("/")
    case Mod => Some("%")       case Pow => Some("**")     case LShift => Some("<<")
    case RShift => Some(">>")   case BitOr => Some("|")    case BitXor => Some("^")
    case BitAnd => Some("&")    case And => Some("&&")     case Or => Some("||")
    case Eq => Some("==")       case NotEq => Some("!=")   case Lt => Some("<")
    case LtE => Some("<=")      case Gt => Some(">")       case GtE => Some(">=")
    case Is => Some("is")       case IsNot => None         case In => Some("in")
    case NotIn => Some("not in")
  }

  /** The operator standing for a whole group of operators sharing a
      symbol: floor division is written as true division, and unary plus
      and minus as their binary forms. */
  function Canonical(o: Op): (c: Op)
    ensures OpSymbol(c) == OpSymbol(o)
    ensures c == o <==> !(o == FloorDiv || o == UAdd || o == USub)
  {
    match o
    case FloorDiv => Div
    case UAdd => Add
    case USub => Sub
    case _ => o
  }

  /** The canonical operator a symbol stands for. */
  function SymbolOp(symbol: string): Option<Op> {
    match symbol
    case "+" => Some(Add)     case "-" => Some(Sub)     case "!" => Some(Not)
    case "~" => Some(Invert)  case "*" => Some(Mult)    case "/" => Some(Div)
    case "%" => Some(Mod)     case "**" => Some(Pow)    case "<<" => Some(LShift)
    case ">>" => Some(RShift) case "|" => Some(BitOr)   case "^" => Some(BitXor)
    case "&" => Some(BitAnd)  case "&&" => Some(And)    case "||" => Some(Or)
    case "==" => Some(Eq)     case "!=" => Some(NotEq)  case "<" => Some(Lt)
    case "<=" => Some(LtE)    case ">" => Some(Gt)      case ">=" => Some(GtE)
    case "is" => Some(Is)     case "in" => Some(In)     case "not in" => Some(NotIn)
    case _ => None
  }

  /** Reading a symbol back gives the canonical form of its operator. */
  lemma SymbolRoundTrip(o: Op)
    ensures OpSymbol(o).Some? ==> SymbolOp(OpSymbol(o).value) == Some(Canonical(o))
  {
  }

  /** Two operators share a symbol exactly when they have the same canonical
      form: the table loses no distinction but those `Canonical` erases. */
  lemma {:induction false} SharedSymbols(a: Op, b: Op)
    ensures (OpSymbol(a).Some? && OpSymbol(a) == OpSymbol(b)) <==> (OpSymbol(a).Some? && Canonical(a) == Canonical(b))
  {
    SymbolRoundTrip(a);
    SymbolRoundTrip(b);
  }

  /** `self.visit(op)`: a bare string, not an object. */
  function SerializeOp(o: Op): (r: Result<Json, Error>)
    ensures r.Ok? <==> o != IsNot && o != MatMult
    ensures r.Ok? ==> r.value.String? && r.value == String(OpSymbol(o).value)
    ensures r.Err? ==> r.error == Unhandled(OpName(o))
  {
    match OpSymbol(o)
    case Some(symbol) => Ok(String(symbol))
    case None => Err(Unhandled(OpName(o)))
  }

  /** `self.visit(node.op)` read directly: a None operator fails, and any
      other gives its symbol as a bare string. */
  function VisitOp(o: Option<Op>, kind: string, attr: string): (r: Result<Json, Error>)
    ensures o.None? ==> r == Err(VisitNone(kind, attr))
    ensures r.Ok? <==> o.Some? && OpSymbol(o.value).Some?
    ensures r.Ok? ==> r.value == String(OpSymbol(o.value).value)
  {
    if o.Some? then SerializeOp(o.value) else Err(VisitNone(kind, attr))
  }

  /** `map(self.visit, ops)`. */
  function VisitOps(ops: seq<Op>): (r: Result<seq<Json>, Error>)
    ensures r.Ok? <==> forall i :: 0 <= i < |ops| ==> OpSymbol(ops[i]).Some?
    ensures r.Ok? ==> (|r.value| == |ops| &&
      forall i :: 0 <= i < |ops| ==> r.value[i] == String(OpSymbol(ops[i]).value))
  {
    if ops == [] then Ok([])
    else
      var head :- SerializeOp(ops[0]);
      var tail :- VisitOps(ops[1..]);
      Ok([head] + tail)
  }

  /** `guard(node, "ops", lambda x: map(self.visit, x))`, before rendering:
      none for a missing list, and otherwise the operators' symbols in
      order, failing when one of them has none. */
  function GuardOps(ops: Option<seq<Op>>): (r: Result<Option<seq<Json>>, Error>)
    ensures ops.None? ==> r == Ok(None)
    ensures ops.Some? ==> (r.Ok? <==> forall i :: 0 <= i < |ops.value| ==> OpSymbol(ops.value[i]).Some?)
    ensures ops.Some? && r.Ok? ==>
      && r.value.Some? && |r.value.value| == |ops.value|
      && forall i :: 0 <= i < |ops.value| ==> r.value.value[i] == String(OpSymbol(ops.value[i]).value)
  {
    if ops.None? then Ok(None)
    else
      var js :- VisitOps(ops.value);
      Ok(Some(js))
  }

  /** `guard(node, attr, lambda x: map(self.visit, x))` on an attribute that
      holds a single node (`starargs`, `kwargs` of a Python 2 call): mapping
      over a node fails. */
  function MapPresent(child: Option<Option<Node>>, kind: string, attr: string): (r: Result<Json, Error>)
    ensures r.Ok? <==> child.None? || child.value.None?
    ensures r.Ok? ==> r.value == Null
    ensures r.Err? ==> r.error == NotIterable(kind, attr)
  {
    if child.Some? && child.value.Some? then Err(NotIterable(kind, attr)) else Ok(Null)
  }
}
