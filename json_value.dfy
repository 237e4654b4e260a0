/** The JSON value model of section 3 of RFC 8259: the only vocabulary the
    serializer and the result envelope may produce. An object is the Python
    dict it is rendered from: a finite map from member names to values. */
module JsonValue {
  import opened Results

  /** The member names the serializer and the result envelope use. They form
      a closed vocabulary, so the model names them by an enumeration; `Name`
      gives the text each one is rendered as. */
  datatype Key =
    | KAlternate | KAnnotation | KArg | KArgs | KAsname | KAttribute | KBases | KBody | KCause
    | KComparators | KConsequent | KContextExpr | KDecoratorList | KDecorators | KDefaults
    | KDims | KDocstring | KElement | KExc | KExcType | KExnType | KExpr | KFinalbody
    | KFunction | KGenerators | KHandlers | KInst | KIter | KKey | KKeywords | KKwDefaults
    | KKwarg | KKwargs | KKwonlyargs | KLeft | KLevel | KLine | KModule | KName | KNames
    | KOperand | KOperator | KOperators | KOptionalVars | KOrelse | KPosition | KReturns
    | KRight | KSlice | KStarargs | KTarget | KTargets | KTback | KTest | KType | KValue
    | KValues | KVararg
    | KSuccess | KMessage | KFilepath | KAst | KContext | KOffset

  function Name(k: Key): string {
    match k
    case KAlternate => "alternate"
    case KAnnotation => "annotation"
    case KArg => "arg"
    case KArgs => "args"
    case KAsname => "asname"
    case KAttribute => "attribute"
    case KBases => "bases"
    case KBody => "body"
    case KCause => "cause"
    case KComparators => "comparators"
    case KConsequent => "consequent"
    case KContextExpr => "context_expr"
    case KDecoratorList => "decorator_list"
    case KDecorators => "decorators"
    case KDefaults => "defaults"
    case KDims => "dims"
    case KDocstring => "docstring"
    case KElement => "element"
    case KExc => "exc"
    case KExcType => "excType"
    case KExnType => "exnType"
    case KExpr => "expr"
    case KFinalbody => "finalbody"
    case KFunction => "function"
    case KGenerators => "generators"
    case KHandlers => "handlers"
    case KInst => "inst"
    case KIter => "iter"
    case KKey => "key"
    case KKeywords => "keywords"
    case KKwDefaults => "kw_defaults"
    case KKwarg => "kwarg"
    case KKwargs => "kwargs"
    case KKwonlyargs => "kwonlyargs"
    case KLeft => "left"
    case KLevel => "level"
    case KLine => "line"
    case KModule => "module"
    case KName => "name"
    case KNames => "names"
    case KOperand => "operand"
    case KOperator => "operator"
    case KOperators => "operators"
    case KOptionalVars => "optional_vars"
    case KOrelse => "orelse"
    case KPosition => "position"
    case KReturns => "returns"
    case KRight => "right"
    case KSlice => "slice"
    case KStarargs => "starargs"
    case KTarget => "target"
    case KTargets => "targets"
    case KTback => "tback"
    case KTest => "test"
    case KType => "type"
    case KValue => "value"
    case KValues => "values"
    case KVararg => "vararg"
    case KSuccess => "success"
    case KMessage => "message"
    case KFilepath => "filepath"
    case KAst => "ast"
    case KContext => "context"
    case KOffset => "offset"
  }

  datatype Json =
    | Null
    | Bool(b: bool)
    | Number(n: int)
    | String(s: string)
    | Array(items: seq<Json>)
    | Object(members: map<Key, Json>)

  /** The member names of `j`, or none when `j` is not an object. */
  function Keys(j: Json): set<Key> {
    if j.Object? then j.members.Keys else {}
  }

  /** `j[key]`, or none when `j` is not an object or lacks the member. */
  function Get(j: Json, key: Key): (r: Option<Json>)
    ensures r.Some? <==> key in Keys(j)
  {
    if j.Object? && key in j.members then Some(j.members[key]) else None
  }
}
