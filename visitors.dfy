module Visitors {
  import opened Results
  import opened JsonValue
  import opened PyAst
  import opened Layout
  import opened SerializerBase

  // -------- literals (Serializer.py:25-124)

  /** `visit_Num` (Serializer.py:25-33). */
  function VisitNum(n: Node): (j: Json)
    requires n.kind.Num?
    ensures ShapedBy(LiteralRow(n.kind), n, j)
    ensures Get(j, KValue) == Some(NullableNumber(n.kind.n))
  {
    Object(map[KExpr := String("Literal"), KType := String("Number"), KValue := NullableNumber(n.kind.n), KPosition := Position(NullableNumber(n.lineno))])
  }

  /** `visit_Str` (Serializer.py:36-45). */
  function VisitStr(n: Node): (j: Json)
    requires n.kind.Str?
    ensures ShapedBy(LiteralRow(n.kind), n, j)
    ensures Get(j, KValue) == Some(NullableString(n.kind.s))
  {
    var Str(v) := n.kind;
    var value := NullableString(v);
    var line := NullableNumber(n.lineno);
    Object(map[KExpr := String("Literal"), KType := String("String"), KValue := value, KPosition := Position(line), KDocstring := Bool(false)])
  }

  /** `visit_Bytes` (Serializer.py:48-57). */
  function VisitBytes(n: Node): (j: Json)
    requires n.kind.Bytes?
    ensures ShapedBy(LiteralRow(n.kind), n, j)
    ensures Get(j, KValue) == Some(NullableString(n.kind.s))
  {
    var Bytes(v) := n.kind;
    var value := NullableString(v);
    var line := NullableNumber(n.lineno);
    Object(map[KExpr := String("Literal"), KType := String("Bytes"), KValue := value, KPosition := Position(line), KDocstring := Bool(false)])
  }

  /** `visit_List` (Serializer.py:60-69); `elts` is the outcome of mapping
      the visitor over `node.elts`. */
  function VisitList(n: Node, elts: Result<Option<seq<Json>>, Error>): (r: Result<Json, Error>)
    requires n.kind.List?
    ensures r.Ok? <==> elts.Ok?
    ensures r.Ok? ==> ShapedBy(LiteralRow(n.kind), n, r.value) && Get(r.value, KValue) == Some(ArrayOrNull(elts.value))
  {
    var value :- elts;
    var line := NullableNumber(n.lineno);
    Ok(Object(map[KExpr := String("Literal"), KType := String("List"), KValue := ArrayOrNull(value), KPosition := Position(line), KDocstring := Bool(false)]))
  }

  /** `visit_Tuple` (Serializer.py:72-81). */
  function VisitTuple(n: Node, elts: Result<Option<seq<Json>>, Error>): (r: Result<Json, Error>)
    requires n.kind.Tuple?
    ensures r.Ok? <==> elts.Ok?
    ensures r.Ok? ==> ShapedBy(LiteralRow(n.kind), n, r.value) && Get(r.value, KValue) == Some(ArrayOrNull(elts.value))
  {
    var value :- elts;
    var line := NullableNumber(n.lineno);
    Ok(Object(map[KExpr := String("Literal"), KType := String("Tuple"), KValue := ArrayOrNull(value), KPosition := Position(line), KDocstring := Bool(false)]))
  }

  /** `visit_Set` (Serializer.py:83-92). */
  function VisitSet(n: Node, elts: Result<Option<seq<Json>>, Error>): (r: Result<Json, Error>)
    requires n.kind.Set?
    ensures r.Ok? <==> elts.Ok?
    ensures r.Ok? ==> ShapedBy(LiteralRow(n.kind), n, r.value) && Get(r.value, KValue) == Some(ArrayOrNull(elts.value))
  {
    var value :- elts;
    var line := NullableNumber(n.lineno);
    Ok(Object(map[KExpr := String("Literal"), KType := String("Set"), KValue := ArrayOrNull(value), KPosition := Position(line), KDocstring := Bool(false)]))
  }

  /** `visit_Dict` (Serializer.py:94-103): both lists are serialized in full
      before `zip` pairs them, so a failure in the longer list's tail still
      fails, and a missing list cannot be zipped. */
  function VisitDict(n: Node, keys: Result<Option<seq<Json>>, Error>, values: Result<Option<seq<Json>>, Error>)
    : (r: Result<Json, Error>)
    requires n.kind.Dict?
    ensures r.Ok? <==> keys.Ok? && values.Ok? && keys.value.Some? && values.value.Some?
    ensures r.Ok? ==> ShapedBy(LiteralRow(n.kind), n, r.value) && Get(r.value, KValue) == Some(Array(Zip(keys.value.value, values.value.value)))
  {
    var ks :- keys;
    var vs :- values;
    if ks.None? then Err(NotIterable("Dict", "keys"))
    else if vs.None? then Err(NotIterable("Dict", "values"))
    else
      var line := NullableNumber(n.lineno);
      Ok(Object(map[KExpr := String("Literal"), KType := String("Dict"), KValue := Array(Zip(ks.value, vs.value)), KPosition := Position(line), KDocstring := Bool(false)]))
  }

  /** `visit_Ellipsis` (Serializer.py:105-113). */
  function VisitEllipsis(n: Node): (j: Json)
    requires n.kind.Ellipsis?
    ensures ShapedBy(LiteralRow(n.kind), n, j)
  {
    var line := NullableNumber(n.lineno);
    Object(map[KExpr := String("Literal"), KType := String("Ellipsis"), KPosition := Position(line), KDocstring := Bool(false)])
  }

  /** `visit_NameConstant` (Serializer.py:115-124). */
  function VisitNameConstant(n: Node): (j: Json)
    requires n.kind.NameConstant?
    ensures ShapedBy(LiteralRow(n.kind), n, j)
    ensures Get(j, KValue) == Some(NullableBool(n.kind.constant))
  {
    var NameConstant(c) := n.kind;
    var value := NullableBool(c);
    var line := NullableNumber(n.lineno);
    Object(map[KExpr := String("Literal"), KType := String("NameConstant"), KValue := value, KPosition := Position(line), KDocstring := Bool(false)])
  }

  // -------- variables (Serializer.py:129-149)

  /** `visit_Name` (Serializer.py:129-138): the identifier is the `line` member. */
  function VisitName(n: Node): (j: Json)
    requires n.kind.Name?
    ensures ShapedBy(VariableRow(n.kind), n, j)
    ensures Get(j, KLine) == Some(NullableString(n.kind.id))
  {
    var Name(id) := n.kind;
    var ident := NullableString(id);
    var line := NullableNumber(n.lineno);
    Object(map[KExpr := String("Variable"), KType := String("Name"), KLine := ident, KPosition := Position(line), KDocstring := Bool(false)])
  }

  /** `visit_Starred` (Serializer.py:140-149). */
  function VisitStarred(n: Node, value: Result<Json, Error>): (r: Result<Json, Error>)
    requires n.kind.Starred?
    ensures r.Ok? <==> value.Ok?
    ensures r.Ok? ==> ShapedBy(VariableRow(n.kind), n, r.value) && Get(r.value, KValue) == Some(value.value)
  {
    var v :- value;
    var line := NullableNumber(n.lineno);
    Ok(Object(map[KExpr := String("Variable"), KType := String("Starred"), KValue := v, KPosition := Position(line), KDocstring := Bool(false)]))
  }

  // -------- expressions (Serializer.py:153-261)

  /** `visit_Expr` (Serializer.py:153-162). */
  function VisitExpr(n: Node, value: Result<Json, Error>): (r: Result<Json, Error>)
    requires n.kind.Expr?
    ensures r.Ok? <==> value.Ok? && n.lineno.Some?
    ensures r.Ok? ==> ShapedBy(ExpressionRow(n.kind), n, r.value) && Get(r.value, KValue) == Some(value.value)
  {
    var v :- value;
    if n.lineno.None? then Err(NoAttribute("Expr", "lineno"))
    else Ok(Object(map[KExpr := String("Expression"), KType := String("Expr"), KValue := v, KPosition := Position(Number(n.lineno.value)), KDocstring := Bool(false)]))
  }

  /** `visit_UnaryOp` (Serializer.py:164-174). */
  function VisitUnaryOp(n: Node, operand: Result<Json, Error>): (r: Result<Json, Error>)
    requires n.kind.UnaryOp?
    ensures r.Ok? <==> (n.kind.op.Some? ==> SerializeOp(n.kind.op.value).Ok?) && operand.Ok? && n.lineno.Some?
    ensures r.Ok? ==> ShapedBy(ExpressionRow(n.kind), n, r.value)
    ensures r.Ok? ==> && Get(r.value, KOperator) == Some(if n.kind.op.Some? then String(OpSymbol(n.kind.op.value).value) else Null)
                      && Get(r.value, KOperand) == Some(operand.value)
  {
    var operator :- Guard(n.kind.op, SerializeOp);
    var x :- operand;
    if n.lineno.None? then Err(NoAttribute("UnaryOp", "lineno"))
    else Ok(Object(map[KExpr := String("Expression"), KType := String("UnaryOp"), KOperator := operator, KOperand := x, KPosition := Position(Number(n.lineno.value)), KDocstring := Bool(false)]))
  }

  /** `visit_BinOp` (Serializer.py:176-187). */
  function VisitBinOp(n: Node, left: Result<Json, Error>, right: Result<Json, Error>): (r: Result<Json, Error>)
    requires n.kind.BinOp?
    ensures r.Ok? <==> (n.kind.op.Some? ==> SerializeOp(n.kind.op.value).Ok?) && left.Ok? && right.Ok? && n.lineno.Some?
    ensures r.Ok? ==> ShapedBy(ExpressionRow(n.kind), n, r.value)
    ensures r.Ok? ==> Get(r.value, KLeft) == Some(left.value) && Get(r.value, KRight) == Some(right.value)
    ensures r.Ok? ==> Get(r.value, KOperator) == Some(if n.kind.op.Some? then String(OpSymbol(n.kind.op.value).value) else Null)
  {
    var operator :- Guard(n.kind.op, SerializeOp);
    var l :- left;
    var r :- right;
    if n.lineno.None? then Err(NoAttribute("BinOp", "lineno"))
    else Ok(Object(map[KExpr := String("Expression"), KType := String("BinOp"), KOperator := operator, KLeft := l, KRight := r, KPosition := Position(Number(n.lineno.value)), KDocstring := Bool(false)]))
  }

  /** `visit_BoolOp` (Serializer.py:189-199). */
  function VisitBoolOp(n: Node, values: Result<Option<seq<Json>>, Error>): (r: Result<Json, Error>)
    requires n.kind.BoolOp?
    ensures r.Ok? <==> (n.kind.op.Some? ==> SerializeOp(n.kind.op.value).Ok?) && values.Ok? && n.lineno.Some?
    ensures r.Ok? ==> ShapedBy(ExpressionRow(n.kind), n, r.value)
    ensures r.Ok? ==> && Get(r.value, KOperator) == Some(if n.kind.op.Some? then String(OpSymbol(n.kind.op.value).value) else Null)
                      && Get(r.value, KValues) == Some(ArrayOrNull(values.value))
  {
    var operator :- Guard(n.kind.op, SerializeOp);
    var vs :- values;
    if n.lineno.None? then Err(NoAttribute("BoolOp", "lineno"))
    else Ok(Object(map[KExpr := String("Expression"), KType := String("BoolOp"), KOperator := operator, KValues := ArrayOrNull(vs), KPosition := Position(Number(n.lineno.value)), KDocstring := Bool(false)]))
  }

  /** `visit_Compare` (Serializer.py:201-212). */
  function VisitCompare(n: Node, left: Result<Json, Error>, comparators: Result<Option<seq<Json>>, Error>)
    : (r: Result<Json, Error>)
    requires n.kind.Compare?
    ensures r.Ok? <==> left.Ok? && (n.kind.ops.Some? ==> VisitOps(n.kind.ops.value).Ok?) && comparators.Ok? && n.lineno.Some?
    ensures r.Ok? ==> ShapedBy(ExpressionRow(n.kind), n, r.value)
    ensures r.Ok? ==> && Get(r.value, KLeft) == Some(left.value)
                      && Get(r.value, KOperators) == Some(if n.kind.ops.Some? then Array(VisitOps(n.kind.ops.value).value) else Null)
                      && Get(r.value, KComparators) == Some(ArrayOrNull(comparators.value))
  {
    var l :- left;
    var os :- GuardOps(n.kind.ops);
    var cs :- comparators;
    if n.lineno.None? then Err(NoAttribute("Compare", "lineno"))
    else Ok(Object(map[KExpr := String("Expression"), KType := String("Compare"), KLeft := l, KOperators := ArrayOrNull(os), KComparators := ArrayOrNull(cs), KPosition := Position(Number(n.lineno.value)), KDocstring := Bool(false)]))
  }

  /** `visit_Call` (Serializer.py:214-227): `func` is placed in the object
      unserialized, so a call with a function fails once rendered. */
  function VisitCall(n: Node, args: Result<Option<seq<Json>>, Error>, keywords: Result<Option<seq<Json>>, Error>)
    : (r: Result<Json, Error>)
    requires n.kind.Call?
    ensures r.Ok? <==> (&& args.Ok? && keywords.Ok? && n.lineno.Some? && n.kind.func.None?
                        && (n.kind.starargs.None? || n.kind.starargs.value.None?)
                        && (n.kind.kwargs.None? || n.kind.kwargs.value.None?))
    ensures r.Ok? ==> ShapedBy(ExpressionRow(n.kind), n, r.value)
    ensures r.Ok? ==> && Get(r.value, KFunction) == Some(Null)
                      && Get(r.value, KArgs) == Some(ArrayOrNull(args.value))
                      && Get(r.value, KKeywords) == Some(ArrayOrNull(keywords.value))
                      && Get(r.value, KStarargs) == Some(Null) && Get(r.value, KKwargs) == Some(Null)
  {
    var a :- args;
    var k :- keywords;
    var s :- MapPresent(n.kind.starargs, "Call", "starargs");
    var w :- MapPresent(n.kind.kwargs, "Call", "kwargs");
    if n.lineno.None? then Err(NoAttribute("Call", "lineno"))
    else if n.kind.func.Some? then Err(RawNode("Call", "func"))
    else
      CallObjectLayout(n, a, k, s, w);
      Ok(CallObject(n, a, k, s, w))
  }

  /** The dict literal of `visit_Call`, given its members' serialized values. */
  function CallObject(n: Node, a: Option<seq<Json>>, k: Option<seq<Json>>, s: Json, w: Json): Json
    requires n.kind.Call? && n.lineno.Some?
  {
    Object(map[KExpr := String("Expression"), KType := String("Call"), KFunction := Null, KArgs := ArrayOrNull(a), KKeywords := ArrayOrNull(k),
         KStarargs := s, KKwargs := w, KPosition := Position(Number(n.lineno.value)), KDocstring := Bool(false)])
  }

  /** The layout and the members of `CallObject`'s object. */
  lemma CallObjectLayout(n: Node, a: Option<seq<Json>>, k: Option<seq<Json>>, s: Json, w: Json)
    requires n.kind.Call? && n.lineno.Some?
    ensures var j := CallObject(n, a, k, s, w);
      && ShapedBy(ExpressionRow(n.kind), n, j)
      && Get(j, KFunction) == Some(Null)
      && Get(j, KArgs) == Some(ArrayOrNull(a)) && Get(j, KKeywords) == Some(ArrayOrNull(k))
      && Get(j, KStarargs) == Some(s) && Get(j, KKwargs) == Some(w)
  {}

  /** `visit_keyword` (Serializer.py:229-236). */
  function VisitKeyword(n: Node, value: Result<Json, Error>): (r: Result<Json, Error>)
    requires n.kind.keyword?
    ensures r.Ok? <==> value.Ok?
    ensures r.Ok? ==> ShapedBy(ExpressionRow(n.kind), n, r.value)
    ensures r.Ok? ==> Get(r.value, KArg) == Some(NullableString(n.kind.arg)) && Get(r.value, KValue) == Some(value.value)
  {
    var a := NullableString(n.kind.arg);
    var v :- value;
    Ok(Object(map[KExpr := String("Expression"), KType := String("keyword"), KArg := a, KValue := v, KDocstring := Bool(false)]))
  }

  /** `visit_IfExp` (Serializer.py:238-249): `body` and `orelse` become
      `consequent` and `alternate`. */
  function VisitIfExp(n: Node, test: Result<Json, Error>, bodyExpr: Result<Json, Error>, orelseExpr: Result<Json, Error>)
    : (r: Result<Json, Error>)
    requires n.kind.IfExp?
    ensures r.Ok? <==> test.Ok? && bodyExpr.Ok? && orelseExpr.Ok? && n.lineno.Some?
    ensures r.Ok? ==> ShapedBy(ExpressionRow(n.kind), n, r.value)
    ensures r.Ok? ==> && Get(r.value, KTest) == Some(test.value)
                      && Get(r.value, KConsequent) == Some(bodyExpr.value)
                      && Get(r.value, KAlternate) == Some(orelseExpr.value)
  {
    var t :- test;
    var c :- bodyExpr;
    var e :- orelseExpr;
    if n.lineno.None? then Err(NoAttribute("IfExp", "lineno"))
    else Ok(Object(map[KExpr := String("Expression"), KType := String("IfExp"), KTest := t, KConsequent := c, KAlternate := e, KPosition := Position(Number(n.lineno.value)), KDocstring := Bool(false)]))
  }

  /** `visit_Attribute` (Serializer.py:251-261). */
  function VisitAttribute(n: Node, value: Result<Json, Error>): (r: Result<Json, Error>)
    requires n.kind.Attribute?
    ensures r.Ok? <==> value.Ok? && n.lineno.Some?
    ensures r.Ok? ==> ShapedBy(ExpressionRow(n.kind), n, r.value)
    ensures r.Ok? ==> Get(r.value, KValue) == Some(value.value) && Get(r.value, KAttribute) == Some(NullableString(n.kind.attr))
  {
    var v :- value;
    var a := NullableString(n.kind.attr);
    if n.lineno.None? then Err(NoAttribute("Attribute", "lineno"))
    else Ok(Object(map[KExpr := String("Expression"), KType := String("Attribute"), KValue := v, KAttribute := a, KPosition := Position(Number(n.lineno.value)), KDocstring := Bool(false)]))
  }

  // -------- subscripting (Serializer.py:265-310)

  /** `visit_Subscript` (Serializer.py:265-275). */
  function VisitSubscript(n: Node, value: Result<Json, Error>, slice: Result<Json, Error>): (r: Result<Json, Error>)
    requires n.kind.Subscript?
    ensures r.Ok? <==> value.Ok? && slice.Ok? && n.lineno.Some?
    ensures value.Err? ==> r == Err(value.error)
    ensures r.Ok? ==> ShapedBy(SubscriptRow(n.kind), n, r.value)
    ensures r.Ok? ==> Get(r.value, KValue) == Some(value.value) && Get(r.value, KSlice) == Some(slice.value)
  {
    var v :- value;
    var s :- slice;
    if n.lineno.None? then Err(NoAttribute("Subscript", "lineno"))
    else Ok(Object(map[KExpr := String("Subscript"), KType := String("Subscript"), KValue := v, KSlice := s, KPosition := Position(Number(n.lineno.value)), KDocstring := Bool(false)]))
  }

  /** `visit_Slice` (Serializer.py:277-288): after `lower`, the swapped
      `hasattr` test fails whatever the node holds. */
  function VisitSlice(n: Node, lower: Result<Json, Error>): (r: Result<Json, Error>)
    requires n.kind.Slice?
    ensures r.Err?
    ensures lower.Ok? ==> r.error == BadHasattr("Slice", "upper")
  {
    var lo :- lower;
    Err(BadHasattr("Slice", "upper"))
  }

  /** `visit_Index` (Serializer.py:290-299). */
  function VisitIndex(n: Node, value: Result<Json, Error>): (r: Result<Json, Error>)
    requires n.kind.Index?
    ensures r.Ok? <==> value.Ok? && n.lineno.Some?
    ensures value.Err? ==> r == Err(value.error)
    ensures r.Ok? ==> ShapedBy(SubscriptRow(n.kind), n, r.value) && Get(r.value, KValue) == Some(value.value)
  {
    var v :- value;
    if n.lineno.None? then Err(NoAttribute("Index", "lineno"))
    else Ok(Object(map[KExpr := String("Subscript"), KType := String("Index"), KValue := v, KPosition := Position(Number(n.lineno.value)), KDocstring := Bool(false)]))
  }

  /** `visit_ExtSlice` (Serializer.py:301-310). */
  function VisitExtSlice(n: Node, dims: Result<seq<Json>, Error>): (r: Result<Json, Error>)
    requires n.kind.ExtSlice?
    ensures r.Ok? <==> dims.Ok? && n.lineno.Some?
    ensures r.Ok? ==> ShapedBy(SubscriptRow(n.kind), n, r.value) && Get(r.value, KDims) == Some(Array(dims.value))
  {
    var ds :- dims;
    if n.lineno.None? then Err(NoAttribute("ExtSlice", "lineno"))
    else Ok(Object(map[KExpr := String("Subscript"), KType := String("Slice"), KDims := Array(ds), KPosition := Position(Number(n.lineno.value)), KDocstring := Bool(false)]))
  }

  // -------- comprehensions (Serializer.py:314-374)

  /** `visit_ListComp` (Serializer.py:326-336), the second of the two
      definitions, which replaces the first. */
  function VisitListComp(n: Node, elt: Result<Json, Error>, generators: Result<seq<Json>, Error>): (r: Result<Json, Error>)
    requires n.kind.ListComp?
    ensures r.Ok? <==> elt.Ok? && generators.Ok? && n.lineno.Some?
    ensures r.Ok? ==> ShapedBy(ComprehensionRow(n.kind), n, r.value)
    ensures r.Ok? ==> Get(r.value, KElement) == Some(elt.value) && Get(r.value, KGenerators) == Some(Array(generators.value))
  {
    var e :- elt;
    var g :- generators;
    if n.lineno.None? then Err(NoAttribute("ListComp", "lineno"))
    else Ok(Object(map[KExpr := String("Comprehension"), KType := String("SetComp"), KElement := e, KGenerators := Array(g), KPosition := Position(Number(n.lineno.value)), KDocstring := Bool(false)]))
  }

  /** `visit_GeneratorExp` (Serializer.py:338-348). */
  function VisitGeneratorExp(n: Node, elt: Result<Json, Error>, generators: Result<seq<Json>, Error>): (r: Result<Json, Error>)
    requires n.kind.GeneratorExp?
    ensures r.Ok? <==> elt.Ok? && generators.Ok? && n.lineno.Some?
    ensures r.Ok? ==> ShapedBy(ComprehensionRow(n.kind), n, r.value)
    ensures r.Ok? ==> Get(r.value, KElement) == Some(elt.value) && Get(r.value, KGenerators) == Some(Array(generators.value))
  {
    var e :- elt;
    var g :- generators;
    if n.lineno.None? then Err(NoAttribute("GeneratorExp", "lineno"))
    else Ok(Object(map[KExpr := String("Comprehension"), KType := String("GeneratorExp"), KElement := e, KGenerators := Array(g), KPosition := Position(Number(n.lineno.value)), KDocstring := Bool(false)]))
  }

  /** `visit_DictComp` (Serializer.py:350-361). */
  function VisitDictComp(n: Node, key: Result<Json, Error>, value: Result<Json, Error>, generators: Result<seq<Json>, Error>)
    : (r: Result<Json, Error>)
    requires n.kind.DictComp?
    ensures r.Ok? <==> key.Ok? && value.Ok? && generators.Ok? && n.lineno.Some?
    ensures r.Ok? ==> ShapedBy(ComprehensionRow(n.kind), n, r.value)
    ensures r.Ok? ==> && Get(r.value, KKey) == Some(key.value) && Get(r.value, KValue) == Some(value.value)
                      && Get(r.value, KGenerators) == Some(Array(generators.value))
  {
    var k :- key;
    var v :- value;
    var g :- generators;
    if n.lineno.None? then Err(NoAttribute("DictComp", "lineno"))
    else Ok(Object(map[KExpr := String("Comprehension"), KType := String("GeneratorExp"), KKey := k, KValue := v, KGenerators := Array(g), KPosition := Position(Number(n.lineno.value)), KDocstring := Bool(false)]))
  }

  /** `visit_comprehension` (Serializer.py:363-374): its first member reads
      `node.key`, which a comprehension clause does not have. */
  function VisitComprehension(n: Node): (r: Result<Json, Error>)
    requires n.kind.comprehension?
    ensures r.Err? && r.error.NoAttribute?
  {
    Err(NoAttribute("comprehension", "key"))
  }

  // -------- statements (Serializer.py:378-473)

  /** `visit_Assign` (Serializer.py:378-388). */
  function VisitAssign(n: Node, targets: Result<seq<Json>, Error>, value: Result<Json, Error>): (r: Result<Json, Error>)
    requires n.kind.Assign?
    ensures r.Ok? <==> targets.Ok? && value.Ok? && n.lineno.Some?
    ensures r.Ok? ==> ShapedBy(StatementRow(n.kind), n, r.value)
    ensures r.Ok? ==> Get(r.value, KTargets) == Some(Array(targets.value)) && Get(r.value, KValue) == Some(value.value)
  {
    var ts :- targets;
    var v :- value;
    if n.lineno.None? then Err(NoAttribute("Assign", "lineno"))
    else Ok(Object(map[KExpr := String("Statement"), KType := String("Assign"), KTargets := Array(ts), KValue := v, KPosition := Position(Number(n.lineno.value)), KDocstring := Bool(false)]))
  }

  /** `visit_AugAssign` (Serializer.py:390-401). */
  function VisitAugAssign(n: Node, target: Result<Json, Error>, value: Result<Json, Error>): (r: Result<Json, Error>)
    requires n.kind.AugAssign?
    ensures r.Ok? <==> target.Ok? && n.kind.op.Some? && SerializeOp(n.kind.op.value).Ok? && value.Ok? && n.lineno.Some?
    ensures r.Ok? ==> ShapedBy(StatementRow(n.kind), n, r.value)
    ensures r.Ok? ==> && Get(r.value, KTarget) == Some(target.value)
                      && Get(r.value, KOperator) == Some(String(OpSymbol(n.kind.op.value).value))
                      && Get(r.value, KValue) == Some(value.value)
  {
    var t :- target;
    var o :- VisitOp(n.kind.op, "AugAssign", "op");
    var v :- value;
    if n.lineno.None? then Err(NoAttribute("AugAssign", "lineno"))
    else Ok(Object(map[KExpr := String("Statement"), KType := String("AugAssign"), KTarget := t, KOperator := o, KValue := v, KPosition := Position(Number(n.lineno.value)), KDocstring := Bool(false)]))
  }

  /** `visit_Print` (Serializer.py:403-414): after `dest`, reads `node.value`,
      which a print statement does not have. */
  function VisitPrint(n: Node, dest: Result<Json, Error>): (r: Result<Json, Error>)
    requires n.kind.Print?
    ensures r.Err?
    ensures dest.Ok? ==> r.error == NoAttribute("Print", "value")
  {
    var d :- dest;
    Err(NoAttribute("Print", "value"))
  }

  /** `visit_Assert` (Serializer.py:416-426): its first member reads
      `node.dest`, which an assertion does not have. */
  function VisitAssert(n: Node): (r: Result<Json, Error>)
    requires n.kind.Assert?
    ensures r.Err? && r.error.NoAttribute?
  {
    Err(NoAttribute("Assert", "dest"))
  }

  /** `visit_Raise` (Serializer.py:428-451) on a node of the `exc`/`cause`
      layout; the `excType` shape reads `node.type`, which it does not have. */
  function VisitRaise(cfg: Config, n: Node, exc: Result<Json, Error>, cause: Result<Json, Error>): (r: Result<Json, Error>)
    requires n.kind.Raise?
    ensures r.Ok? <==> cfg.raiseShape.ExcCause? && exc.Ok? && cause.Ok? && n.lineno.Some?
    ensures cfg.raiseShape.TypeInstTback? ==> r == Err(NoAttribute("Raise", "type"))
    ensures cfg.raiseShape.ExcCause? && exc.Err? ==> r == Err(exc.error)
    ensures r.Ok? ==> ShapedBy(StatementRow(n.kind), n, r.value)
    ensures r.Ok? ==> Get(r.value, KExc) == Some(exc.value) && Get(r.value, KCause) == Some(cause.value)
  {
    if cfg.raiseShape.TypeInstTback? then Err(NoAttribute("Raise", "type"))
    else
      var e :- exc;
      var c :- cause;
      if n.lineno.None? then Err(NoAttribute("Raise", "lineno"))
      else Ok(Object(map[KExpr := String("Statement"), KType := String("Raise"), KExc := e, KCause := c, KPosition := Position(Number(n.lineno.value)), KDocstring := Bool(false)]))
  }

  /** `visit_Raise` (Serializer.py:428-451) on a node of the
      `type`/`inst`/`tback` layout; the `exc` shape reads `node.exc`, which it
      does not have. */
  function VisitRaiseLegacy(cfg: Config, n: Node, exnType: Result<Json, Error>, inst: Result<Json, Error>,
                            tback: Result<Json, Error>): (r: Result<Json, Error>)
    requires n.kind.RaiseLegacy?
    ensures r.Ok? <==> cfg.raiseShape.TypeInstTback? && exnType.Ok? && inst.Ok? && tback.Ok? && n.lineno.Some?
    ensures cfg.raiseShape.ExcCause? ==> r == Err(NoAttribute("Raise", "exc"))
    ensures r.Ok? ==> ShapedBy(StatementRow(n.kind), n, r.value)
    ensures r.Ok? ==> && Get(r.value, KExcType) == Some(exnType.value) && Get(r.value, KInst) == Some(inst.value)
                      && Get(r.value, KTback) == Some(tback.value)
  {
    if cfg.raiseShape.ExcCause? then Err(NoAttribute("Raise", "exc"))
    else
      var t :- exnType;
      var i :- inst;
      var b :- tback;
      if n.lineno.None? then Err(NoAttribute("Raise", "lineno"))
      else Ok(Object(map[KExpr := String("Statement"), KType := String("Raise"), KExcType := t, KInst := i, KTback := b, KPosition := Position(Number(n.lineno.value)), KDocstring := Bool(false)]))
  }

  /** `visit_Delete` (Serializer.py:454-463). */
  function VisitDelete(n: Node, targets: Result<seq<Json>, Error>): (r: Result<Json, Error>)
    requires n.kind.Delete?
    ensures r.Ok? <==> targets.Ok? && n.lineno.Some?
    ensures r.Ok? ==> ShapedBy(StatementRow(n.kind), n, r.value) && Get(r.value, KTargets) == Some(Array(targets.value))
  {
    var ts :- targets;
    if n.lineno.None? then Err(NoAttribute("Delete", "lineno"))
    else Ok(Object(map[KExpr := String("Statement"), KType := String("Delete"), KTargets := Array(ts), KPosition := Position(Number(n.lineno.value)), KDocstring := Bool(false)]))
  }

  /** `visit_Pass` (Serializer.py:465-473). */
  function VisitPass(n: Node): (r: Result<Json, Error>)
    requires n.kind.Pass?
    ensures r.Ok? <==> n.lineno.Some?
    ensures r.Ok? ==> ShapedBy(StatementRow(n.kind), n, r.value)
  {
    if n.lineno.None? then Err(NoAttribute("Pass", "lineno"))
    else Ok(Object(map[KExpr := String("Statement"), KType := String("Pass"), KPosition := Position(Number(n.lineno.value)), KDocstring := Bool(false)]))
  }

  // -------- imports (Serializer.py:478-509)

  /** `visit_Import` (Serializer.py:478-487). */
  function VisitImport(n: Node, names: Result<seq<Json>, Error>): (r: Result<Json, Error>)
    requires n.kind.Import?
    ensures r.Ok? <==> names.Ok? && n.lineno.Some?
    ensures r.Ok? ==> ShapedBy(ImportRow(n.kind), n, r.value) && Get(r.value, KNames) == Some(Array(names.value))
  {
    var ns :- names;
    if n.lineno.None? then Err(NoAttribute("Import", "lineno"))
    else Ok(Object(map[KExpr := String("Import"), KType := String("Import"), KNames := Array(ns), KPosition := Position(Number(n.lineno.value)), KDocstring := Bool(false)]))
  }

  /** `visit_ImportFrom` (Serializer.py:489-500). */
  function VisitImportFrom(n: Node, names: Result<seq<Json>, Error>): (r: Result<Json, Error>)
    requires n.kind.ImportFrom?
    ensures r.Ok? <==> names.Ok? && n.lineno.Some?
    ensures r.Ok? ==> ShapedBy(ImportRow(n.kind), n, r.value)
    ensures r.Ok? ==> && Get(r.value, KModule) == Some(NullableString(n.kind.moduleName))
                      && Get(r.value, KNames) == Some(Array(names.value))
                      && Get(r.value, KLevel) == Some(NullableNumber(n.kind.level))
  {
    var ns :- names;
    if n.lineno.None? then Err(NoAttribute("ImportFrom", "lineno"))
    else Ok(Object(map[KExpr := String("Import"), KType := String("ImportFrom"), KModule := NullableString(n.kind.moduleName), KNames := Array(ns), KLevel := NullableNumber(n.kind.level),
       KPosition := Position(Number(n.lineno.value)), KDocstring := Bool(false)]))
  }

  /** `visit_alias` (Serializer.py:502-509). */
  function VisitAlias(n: Node): (j: Json)
    requires n.kind.alias?
    ensures ShapedBy(ImportRow(n.kind), n, j)
    ensures Get(j, KName) == Some(String(n.kind.name)) && Get(j, KAsname) == Some(NullableString(n.kind.asname))
  {
    Object(map[KExpr := String("Import"), KType := String("ImportFrom"), KName := String(n.kind.name), KAsname := NullableString(n.kind.asname), KDocstring := Bool(false)])
  }

  // -------- control flow (Serializer.py:513-648)

  /** `visit_If` (Serializer.py:513-524): `body` and `orelse` become
      `consequent` and `alternate`. */
  function VisitIf(n: Node, test: Result<Json, Error>, body: Result<seq<Json>, Error>, orelse: Result<seq<Json>, Error>)
    : (r: Result<Json, Error>)
    requires n.kind.If?
    ensures r.Ok? <==> test.Ok? && body.Ok? && orelse.Ok? && n.lineno.Some?
    ensures r.Ok? ==> ShapedBy(ControlFlowRow(n.kind), n, r.value)
    ensures r.Ok? ==> && Get(r.value, KTest) == Some(test.value)
                      && Get(r.value, KConsequent) == Some(Array(body.value))
                      && Get(r.value, KAlternate) == Some(Array(orelse.value))
  {
    var t :- test;
    var b :- body;
    var o :- orelse;
    if n.lineno.None? then Err(NoAttribute("If", "lineno"))
    else Ok(Object(map[KExpr := String("ControlFlow"), KType := String("If"), KTest := t, KConsequent := Array(b), KAlternate := Array(o), KPosition := Position(Number(n.lineno.value)), KDocstring := Bool(false)]))
  }

  /** `visit_For` (Serializer.py:526-538). */
  function VisitFor(n: Node, target: Result<Json, Error>, iter: Result<Json, Error>,
                    body: Result<seq<Json>, Error>, orelse: Result<seq<Json>, Error>): (r: Result<Json, Error>)
    requires n.kind.For?
    ensures r.Ok? <==> target.Ok? && iter.Ok? && body.Ok? && orelse.Ok? && n.lineno.Some?
    ensures r.Ok? ==> ShapedBy(ControlFlowRow(n.kind), n, r.value)
    ensures r.Ok? ==> && Get(r.value, KTarget) == Some(target.value) && Get(r.value, KIter) == Some(iter.value)
                      && Get(r.value, KBody) == Some(Array(body.value))
                      && Get(r.value, KOrelse) == Some(Array(orelse.value))
  {
    var t :- target;
    var i :- iter;
    var b :- body;
    var o :- orelse;
    if n.lineno.None? then Err(NoAttribute("For", "lineno"))
    else
      ForObjectLayout(n, t, i, b, o);
      Ok(ForObject(n, t, i, b, o))
  }

  /** The dict literal of `visit_For`, given its members' serialized values. */
  function ForObject(n: Node, t: Json, i: Json, b: seq<Json>, o: seq<Json>): Json
    requires n.kind.For? && n.lineno.Some?
  {
    Object(map[KExpr := String("ControlFlow"), KType := String("For"), KTarget := t, KIter := i, KBody := Array(b), KOrelse := Array(o), KPosition := Position(Number(n.lineno.value)), KDocstring := Bool(false)])
  }

  /** The layout and the members of `ForObject`'s object. */
  lemma ForObjectLayout(n: Node, t: Json, i: Json, b: seq<Json>, o: seq<Json>)
    requires n.kind.For? && n.lineno.Some?
    ensures var j := ForObject(n, t, i, b, o);
      && ShapedBy(ControlFlowRow(n.kind), n, j)
      && Get(j, KTarget) == Some(t) && Get(j, KIter) == Some(i)
      && Get(j, KBody) == Some(Array(b)) && Get(j, KOrelse) == Some(Array(o))
  {}

  /** `visit_While` (Serializer.py:541-552). */
  function VisitWhile(n: Node, test: Result<Json, Error>, body: Result<seq<Json>, Error>, orelse: Result<seq<Json>, Error>)
    : (r: Result<Json, Error>)
    requires n.kind.While?
    ensures r.Ok? <==> test.Ok? && body.Ok? && orelse.Ok? && n.lineno.Some?
    ensures r.Ok? ==> ShapedBy(ControlFlowRow(n.kind), n, r.value)
    ensures r.Ok? ==> && Get(r.value, KTest) == Some(test.value)
                      && Get(r.value, KBody) == Some(Array(body.value))
                      && Get(r.value, KOrelse) == Some(Array(orelse.value))
  {
    var t :- test;
    var b :- body;
    var o :- orelse;
    if n.lineno.None? then Err(NoAttribute("While", "lineno"))
    else Ok(Object(map[KExpr := String("ControlFlow"), KType := String("While"), KTest := t, KBody := Array(b), KOrelse := Array(o), KPosition := Position(Number(n.lineno.value)), KDocstring := Bool(false)]))
  }

  /** `visit_Break` (Serializer.py:554-562). */
  function VisitBreak(n: Node): (r: Result<Json, Error>)
    requires n.kind.Break?
    ensures r.Ok? <==> n.lineno.Some?
    ensures r.Ok? ==> ShapedBy(ControlFlowRow(n.kind), n, r.value)
  {
    if n.lineno.None? then Err(NoAttribute("Break", "lineno"))
    else Ok(Object(map[KExpr := String("ControlFlow"), KType := String("Break"), KPosition := Position(Number(n.lineno.value)), KDocstring := Bool(false)]))
  }

  /** `visit_Continue` (Serializer.py:564-572). */
  function VisitContinue(n: Node): (r: Result<Json, Error>)
    requires n.kind.Continue?
    ensures r.Ok? <==> n.lineno.Some?
    ensures r.Ok? ==> ShapedBy(ControlFlowRow(n.kind), n, r.value)
  {
    if n.lineno.None? then Err(NoAttribute("Continue", "lineno"))
    else Ok(Object(map[KExpr := String("ControlFlow"), KType := String("Continue"), KPosition := Position(Number(n.lineno.value)), KDocstring := Bool(false)]))
  }

  /** `visit_Try` (Serializer.py:574-586). */
  function VisitTry(n: Node, body: Result<seq<Json>, Error>, handlers: Result<seq<Json>, Error>,
                    orelse: Result<seq<Json>, Error>, finalbody: Result<seq<Json>, Error>): (r: Result<Json, Error>)
    requires n.kind.Try?
    ensures r.Ok? <==> body.Ok? && handlers.Ok? && orelse.Ok? && finalbody.Ok? && n.lineno.Some?
    ensures r.Ok? ==> ShapedBy(ControlFlowRow(n.kind), n, r.value)
    ensures r.Ok? ==> && Get(r.value, KBody) == Some(Array(body.value))
                      && Get(r.value, KHandlers) == Some(Array(handlers.value))
                      && Get(r.value, KOrelse) == Some(Array(orelse.value))
                      && Get(r.value, KFinalbody) == Some(Array(finalbody.value))
  {
    var b :- body;
    var h :- handlers;
    var o :- orelse;
    var f :- finalbody;
    if n.lineno.None? then Err(NoAttribute("Try", "lineno"))
    else
      TryObjectLayout(n, b, h, o, f);
      Ok(TryObject(n, b, h, o, f))
  }

  /** The dict literal of `visit_Try`, given its members' serialized values. */
  function TryObject(n: Node, b: seq<Json>, h: seq<Json>, o: seq<Json>, f: seq<Json>): Json
    requires n.kind.Try? && n.lineno.Some?
  {
    Object(map[KExpr := String("ControlFlow"), KType := String("Try"), KBody := Array(b), KHandlers := Array(h), KOrelse := Array(o), KFinalbody := Array(f), KPosition := Position(Number(n.lineno.value)), KDocstring := Bool(false)])
  }

  /** The layout and the members of `TryObject`'s object. */
  lemma TryObjectLayout(n: Node, b: seq<Json>, h: seq<Json>, o: seq<Json>, f: seq<Json>)
    requires n.kind.Try? && n.lineno.Some?
    ensures var j := TryObject(n, b, h, o, f);
      && ShapedBy(ControlFlowRow(n.kind), n, j)
      && Get(j, KBody) == Some(Array(b)) && Get(j, KHandlers) == Some(Array(h))
      && Get(j, KOrelse) == Some(Array(o)) && Get(j, KFinalbody) == Some(Array(f))
  {}

  /** `visit_TryFinally` (Serializer.py:588-598). */
  function VisitTryFinally(n: Node, body: Result<seq<Json>, Error>, finalbody: Result<seq<Json>, Error>): (r: Result<Json, Error>)
    requires n.kind.TryFinally?
    ensures r.Ok? <==> body.Ok? && finalbody.Ok? && n.lineno.Some?
    ensures r.Ok? ==> ShapedBy(ControlFlowRow(n.kind), n, r.value)
    ensures r.Ok? ==> Get(r.value, KBody) == Some(Array(body.value)) && Get(r.value, KFinalbody) == Some(Array(finalbody.value))
  {
    var b :- body;
    var f :- finalbody;
    if n.lineno.None? then Err(NoAttribute("TryFinally", "lineno"))
    else Ok(Object(map[KExpr := String("ControlFlow"), KType := String("TryFinally"), KBody := Array(b), KFinalbody := Array(f), KPosition := Position(Number(n.lineno.value)), KDocstring := Bool(false)]))
  }

  /** `visit_TryExcept` (Serializer.py:600-611). */
  function VisitTryExcept(n: Node, body: Result<seq<Json>, Error>, handlers: Result<seq<Json>, Error>,
                          orelse: Result<seq<Json>, Error>): (r: Result<Json, Error>)
    requires n.kind.TryExcept?
    ensures r.Ok? <==> body.Ok? && handlers.Ok? && orelse.Ok? && n.lineno.Some?
    ensures r.Ok? ==> ShapedBy(ControlFlowRow(n.kind), n, r.value)
    ensures r.Ok? ==> && Get(r.value, KBody) == Some(Array(body.value))
                      && Get(r.value, KHandlers) == Some(Array(handlers.value))
                      && Get(r.value, KOrelse) == Some(Array(orelse.value))
  {
    var b :- body;
    var h :- handlers;
    var o :- orelse;
    if n.lineno.None? then Err(NoAttribute("TryExcept", "lineno"))
    else
      TryExceptObjectLayout(n, b, h, o);
      Ok(TryExceptObject(n, b, h, o))
  }

  /** The dict literal of `visit_TryExcept`, given its members' serialized values. */
  function TryExceptObject(n: Node, b: seq<Json>, h: seq<Json>, o: seq<Json>): Json
    requires n.kind.TryExcept? && n.lineno.Some?
  {
    Object(map[KExpr := String("ControlFlow"), KType := String("TryExcept"), KBody := Array(b), KHandlers := Array(h), KOrelse := Array(o), KPosition := Position(Number(n.lineno.value)), KDocstring := Bool(false)])
  }

  /** The layout and the members of `TryExceptObject`'s object. */
  lemma TryExceptObjectLayout(n: Node, b: seq<Json>, h: seq<Json>, o: seq<Json>)
    requires n.kind.TryExcept? && n.lineno.Some?
    ensures var j := TryExceptObject(n, b, h, o);
      && ShapedBy(ControlFlowRow(n.kind), n, j)
      && Get(j, KBody) == Some(Array(b)) && Get(j, KHandlers) == Some(Array(h)) && Get(j, KOrelse) == Some(Array(o))
  {}

  /** `visit_ExceptHandler` (Serializer.py:613-624): the handler's exception
      type is visited directly, so a bare `except:` fails; the bound name is
      placed as it is, so a Python 2 bound name (a node) fails once
      rendered. */
  function VisitExceptHandler(n: Node, exnType: Result<Json, Error>, body: Result<seq<Json>, Error>): (r: Result<Json, Error>)
    requires n.kind.ExceptHandler?
    ensures r.Ok? <==> exnType.Ok? && body.Ok? && n.lineno.Some? && !n.kind.boundName.IdNode?
    ensures exnType.Err? ==> r == Err(exnType.error)
    ensures r.Ok? ==> ShapedBy(ControlFlowRow(n.kind), n, r.value)
    ensures r.Ok? ==> && Get(r.value, KExnType) == Some(exnType.value)
                      && Get(r.value, KName) == Some(if n.kind.boundName.Id? then String(n.kind.boundName.text) else Null)
                      && Get(r.value, KBody) == Some(Array(body.value))
  {
    var e :- exnType;
    var b :- body;
    if n.lineno.None? then Err(NoAttribute("ExceptHandler", "lineno"))
    else if n.kind.boundName.IdNode? then Err(RawNode("ExceptHandler", "name"))
    else
      ExceptHandlerObjectLayout(n, e, b);
      Ok(ExceptHandlerObject(n, e, b))
  }

  /** The dict literal of `visit_ExceptHandler`, given its members' serialized values. */
  function ExceptHandlerObject(n: Node, e: Json, b: seq<Json>): Json
    requires n.kind.ExceptHandler? && n.lineno.Some? && !n.kind.boundName.IdNode?
  {
    var name := if n.kind.boundName.Id? then String(n.kind.boundName.text) else Null;
    Object(map[KExpr := String("ControlFlow"), KType := String("ExceptHandler"), KExnType := e, KName := name, KBody := Array(b), KPosition := Position(Number(n.lineno.value)), KDocstring := Bool(false)])
  }

  /** The layout and the members of `ExceptHandlerObject`'s object. */
  lemma ExceptHandlerObjectLayout(n: Node, e: Json, b: seq<Json>)
    requires n.kind.ExceptHandler? && n.lineno.Some? && !n.kind.boundName.IdNode?
    ensures var j := ExceptHandlerObject(n, e, b);
      && ShapedBy(ControlFlowRow(n.kind), n, j)
      && Get(j, KExnType) == Some(e) && Get(j, KBody) == Some(Array(b))
      && Get(j, KName) == Some(if n.kind.boundName.Id? then String(n.kind.boundName.text) else Null)
  {}

  /** `visit_With` (Serializer.py:626-636): its first member reads
      `node.type`, which a `with` statement does not have. */
  function VisitWith(n: Node): (r: Result<Json, Error>)
    requires n.kind.With?
    ensures r.Err? && r.error.NoAttribute?
  {
    Err(NoAttribute("With", "type"))
  }

  /** `visit_withitem` (Serializer.py:638-648): with `optional_vars` present
      it reads `node.type`, which a with-item does not have. */
  function VisitWithitem(n: Node, contextExpr: Result<Json, Error>): (r: Result<Json, Error>)
    requires n.kind.withitem?
    ensures r.Ok? <==> contextExpr.Ok? && n.kind.optionalVars.None? && n.lineno.Some?
    ensures r.Ok? ==> ShapedBy(ControlFlowRow(n.kind), n, r.value)
    ensures r.Ok? ==> Get(r.value, KContextExpr) == Some(contextExpr.value) && Get(r.value, KOptionalVars) == Some(Null)
  {
    var c :- contextExpr;
    if n.kind.optionalVars.Some? then Err(NoAttribute("withitem", "type"))
    else
      if n.lineno.None? then Err(NoAttribute("withitem", "lineno"))
      else Ok(Object(map[KExpr := String("ControlFlow"), KType := String("WithItem"), KContextExpr := c, KOptionalVars := Null, KPosition := Position(Number(n.lineno.value)), KDocstring := Bool(false)]))
  }

  // -------- function and module definitions (Serializer.py:652-782)

  /** `visit_FunctionDef` (Serializer.py:652-665). */
  function VisitFunctionDef(n: Node, signature: Result<Json, Error>, body: Result<seq<Json>, Error>,
                            decoratorList: Result<seq<Json>, Error>, returnAnnotation: Result<Json, Error>)
    : (r: Result<Json, Error>)
    requires n.kind.FunctionDef?
    ensures r.Ok? <==> signature.Ok? && body.Ok? && decoratorList.Ok? && returnAnnotation.Ok? && n.lineno.Some?
    ensures r.Ok? ==> ShapedBy(DefinitionRow(n.kind), n, r.value)
    ensures r.Ok? ==> && Get(r.value, KName) == Some(String(n.kind.name)) && Get(r.value, KArgs) == Some(signature.value)
                      && Get(r.value, KBody) == Some(Array(body.value))
                      && Get(r.value, KDecorators) == Some(Array(decoratorList.value))
                      && Get(r.value, KReturns) == Some(returnAnnotation.value)
  {
    var a :- signature;
    var b :- body;
    var d :- decoratorList;
    var ret :- returnAnnotation;
    if n.lineno.None? then Err(NoAttribute("FunctionDef", "lineno"))
    else
      FunctionDefObjectLayout(n, a, b, d, ret);
      Ok(FunctionDefObject(n, a, b, d, ret))
  }

  /** The dict literal of `visit_FunctionDef`, given its members' serialized values. */
  function FunctionDefObject(n: Node, a: Json, b: seq<Json>, d: seq<Json>, ret: Json): Json
    requires n.kind.FunctionDef? && n.lineno.Some?
  {
    Object(map[KExpr := String("Definitions"), KType := String("FunctionDef"), KName := String(n.kind.name), KArgs := a, KBody := Array(b), KDecorators := Array(d), KReturns := ret,
       KPosition := Position(Number(n.lineno.value)), KDocstring := DocstringOf(n.kind.body)])
  }

  /** The layout and the members of `FunctionDefObject`'s object. */
  lemma FunctionDefObjectLayout(n: Node, a: Json, b: seq<Json>, d: seq<Json>, ret: Json)
    requires n.kind.FunctionDef? && n.lineno.Some?
    ensures var j := FunctionDefObject(n, a, b, d, ret);
      && ShapedBy(DefinitionRow(n.kind), n, j)
      && Get(j, KName) == Some(String(n.kind.name)) && Get(j, KArgs) == Some(a) && Get(j, KBody) == Some(Array(b))
      && Get(j, KDecorators) == Some(Array(d)) && Get(j, KReturns) == Some(ret)
  {}

  /** `visit_Lambda` (Serializer.py:667-677). */
  function VisitLambda(n: Node, signature: Result<Json, Error>, bodyExpr: Result<Json, Error>): (r: Result<Json, Error>)
    requires n.kind.Lambda?
    ensures r.Ok? <==> signature.Ok? && bodyExpr.Ok? && n.lineno.Some?
    ensures r.Ok? ==> ShapedBy(DefinitionRow(n.kind), n, r.value)
    ensures r.Ok? ==> Get(r.value, KArgs) == Some(signature.value) && Get(r.value, KBody) == Some(bodyExpr.value)
  {
    var a :- signature;
    var b :- bodyExpr;
    if n.lineno.None? then Err(NoAttribute("Lambda", "lineno"))
    else Ok(Object(map[KExpr := String("Definitions"), KType := String("Lambda"), KArgs := a, KBody := b, KPosition := Position(Number(n.lineno.value)), KDocstring := Bool(false)]))
  }

  /** `visit_arguments` (Serializer.py:679-690). */
  function VisitArguments(n: Node, params: Result<seq<Json>, Error>, kwonlyargs: Result<Option<seq<Json>>, Error>,
                          vararg: Result<Json, Error>, kwarg: Result<Json, Error>, defaults: Result<seq<Json>, Error>,
                          kwDefaults: Result<Option<seq<Json>>, Error>): (r: Result<Json, Error>)
    requires n.kind.arguments?
    ensures r.Ok? <==> params.Ok? && kwonlyargs.Ok? && vararg.Ok? && kwarg.Ok? && defaults.Ok? && kwDefaults.Ok?
    ensures r.Ok? ==> ShapedBy(DefinitionRow(n.kind), n, r.value)
    ensures r.Ok? ==> && Get(r.value, KArgs) == Some(Array(params.value))
                      && Get(r.value, KKwonlyargs) == Some(ArrayOrNull(kwonlyargs.value))
                      && Get(r.value, KVararg) == Some(vararg.value) && Get(r.value, KKwarg) == Some(kwarg.value)
                      && Get(r.value, KDefaults) == Some(Array(defaults.value))
                      && Get(r.value, KKwDefaults) == Some(ArrayOrNull(kwDefaults.value))
  {
    var a :- params;
    var k :- kwonlyargs;
    var v :- vararg;
    var w :- kwarg;
    var d :- defaults;
    var kd :- kwDefaults;
    ArgumentsObjectLayout(n, a, k, v, w, d, kd);
    Ok(ArgumentsObject(n, a, k, v, w, d, kd))
  }

  /** The dict literal of `visit_Arguments`, given its members' serialized values. */
  function ArgumentsObject(n: Node, a: seq<Json>, k: Option<seq<Json>>, v: Json, w: Json, d: seq<Json>, kd: Option<seq<Json>>): Json
    requires n.kind.arguments?
  {
    Object(map[KExpr := String("Definitions"), KType := String("Arguments"), KArgs := Array(a), KKwonlyargs := ArrayOrNull(k), KVararg := v, KKwarg := w,
       KDefaults := Array(d), KKwDefaults := ArrayOrNull(kd), KDocstring := Bool(false)])
  }

  /** The layout and the members of `ArgumentsObject`'s object. */
  lemma ArgumentsObjectLayout(n: Node, a: seq<Json>, k: Option<seq<Json>>, v: Json, w: Json, d: seq<Json>, kd: Option<seq<Json>>)
    requires n.kind.arguments?
    ensures var j := ArgumentsObject(n, a, k, v, w, d, kd);
      && ShapedBy(DefinitionRow(n.kind), n, j)
      && Get(j, KArgs) == Some(Array(a)) && Get(j, KKwonlyargs) == Some(ArrayOrNull(k))
      && Get(j, KVararg) == Some(v) && Get(j, KKwarg) == Some(w)
      && Get(j, KDefaults) == Some(Array(d)) && Get(j, KKwDefaults) == Some(ArrayOrNull(kd))
  {}

  /** `visit_arg` (Serializer.py:692-699): the annotation is visited
      directly, so an unannotated parameter fails. */
  function VisitArg(n: Node, annotation: Result<Json, Error>): (r: Result<Json, Error>)
    requires n.kind.arg?
    ensures r.Ok? <==> annotation.Ok?
    ensures annotation.Err? ==> r == Err(annotation.error)
    ensures r.Ok? ==> ShapedBy(DefinitionRow(n.kind), n, r.value)
    ensures r.Ok? ==> Get(r.value, KArg) == Some(String(n.kind.name)) && Get(r.value, KAnnotation) == Some(annotation.value)
  {
    var a :- annotation;
    Ok(Object(map[KExpr := String("Definitions"), KType := String("arg"), KArg := String(n.kind.name), KAnnotation := a, KDocstring := Bool(false)]))
  }

  /** `visit_Return` (Serializer.py:701-710): the value is visited directly,
      so a bare `return` fails. */
  function VisitReturn(n: Node, value: Result<Json, Error>): (r: Result<Json, Error>)
    requires n.kind.Return?
    ensures r.Ok? <==> value.Ok? && n.lineno.Some?
    ensures value.Err? ==> r == Err(value.error)
    ensures r.Ok? ==> ShapedBy(DefinitionRow(n.kind), n, r.value) && Get(r.value, KValue) == Some(value.value)
  {
    var v :- value;
    if n.lineno.None? then Err(NoAttribute("Return", "lineno"))
    else Ok(Object(map[KExpr := String("Definitions"), KType := String("Return"), KValue := v, KPosition := Position(Number(n.lineno.value)), KDocstring := Bool(false)]))
  }

  /** `visit_Yield` (Serializer.py:712-721): a bare `yield` fails. */
  function VisitYield(n: Node, value: Result<Json, Error>): (r: Result<Json, Error>)
    requires n.kind.Yield?
    ensures r.Ok? <==> value.Ok? && n.lineno.Some?
    ensures value.Err? ==> r == Err(value.error)
    ensures r.Ok? ==> ShapedBy(DefinitionRow(n.kind), n, r.value) && Get(r.value, KValue) == Some(value.value)
  {
    var v :- value;
    if n.lineno.None? then Err(NoAttribute("Yield", "lineno"))
    else Ok(Object(map[KExpr := String("Definitions"), KType := String("Yield"), KValue := v, KPosition := Position(Number(n.lineno.value)), KDocstring := Bool(false)]))
  }

  /** `visit_YieldFrom` (Serializer.py:723-732). */
  function VisitYieldFrom(n: Node, value: Result<Json, Error>): (r: Result<Json, Error>)
    requires n.kind.YieldFrom?
    ensures r.Ok? <==> value.Ok? && n.lineno.Some?
    ensures value.Err? ==> r == Err(value.error)
    ensures r.Ok? ==> ShapedBy(DefinitionRow(n.kind), n, r.value) && Get(r.value, KValue) == Some(value.value)
  {
    var v :- value;
    if n.lineno.None? then Err(NoAttribute("YieldFrom", "lineno"))
    else Ok(Object(map[KExpr := String("Definitions"), KType := String("YieldFrom"), KValue := v, KPosition := Position(Number(n.lineno.value)), KDocstring := Bool(false)]))
  }

  /** `visit_Global` (Serializer.py:734-743). */
  function VisitGlobal(n: Node): (r: Result<Json, Error>)
    requires n.kind.Global?
    ensures r.Ok? <==> n.lineno.Some?
    ensures r.Ok? ==> ShapedBy(DefinitionRow(n.kind), n, r.value)
    ensures r.Ok? ==> Get(r.value, KNames) == Some(Array(Strings(n.kind.identifiers)))
  {
    if n.lineno.None? then Err(NoAttribute("Global", "lineno"))
    else Ok(Object(map[KExpr := String("Definitions"), KType := String("Global"), KNames := Array(Strings(n.kind.identifiers)), KPosition := Position(Number(n.lineno.value)), KDocstring := Bool(false)]))
  }

  /** `visit_Nonlocal` (Serializer.py:745-754). */
  function VisitNonlocal(n: Node): (r: Result<Json, Error>)
    requires n.kind.Nonlocal?
    ensures r.Ok? <==> n.lineno.Some?
    ensures r.Ok? ==> ShapedBy(DefinitionRow(n.kind), n, r.value)
    ensures r.Ok? ==> Get(r.value, KNames) == Some(Array(Strings(n.kind.identifiers)))
  {
    if n.lineno.None? then Err(NoAttribute("Nonlocal", "lineno"))
    else Ok(Object(map[KExpr := String("Definitions"), KType := String("Nonlocal"), KNames := Array(Strings(n.kind.identifiers)), KPosition := Position(Number(n.lineno.value)), KDocstring := Bool(false)]))
  }

  /** `visit_ClassDef` (Serializer.py:756-771). */
  function VisitClassDef(n: Node, bases: Result<seq<Json>, Error>, keywords: Result<Option<seq<Json>>, Error>,
                         starargs: Result<Json, Error>, kwargs: Result<Json, Error>, body: Result<seq<Json>, Error>,
                         decoratorList: Result<seq<Json>, Error>): (r: Result<Json, Error>)
    requires n.kind.ClassDef?
    ensures r.Ok? <==> bases.Ok? && keywords.Ok? && starargs.Ok? && kwargs.Ok? && body.Ok? && decoratorList.Ok? && n.lineno.Some?
    ensures r.Ok? ==> ShapedBy(DefinitionRow(n.kind), n, r.value)
    ensures r.Ok? ==> && Get(r.value, KName) == Some(String(n.kind.name)) && Get(r.value, KBases) == Some(Array(bases.value))
                      && Get(r.value, KKeywords) == Some(ArrayOrNull(keywords.value))
                      && Get(r.value, KStarargs) == Some(starargs.value) && Get(r.value, KKwargs) == Some(kwargs.value)
                      && Get(r.value, KBody) == Some(Array(body.value))
                      && Get(r.value, KDecoratorList) == Some(Array(decoratorList.value))
  {
    var bs :- bases;
    var ks :- keywords;
    var s :- starargs;
    var w :- kwargs;
    var b :- body;
    var d :- decoratorList;
    if n.lineno.None? then Err(NoAttribute("ClassDef", "lineno"))
    else
      ClassDefObjectLayout(n, bs, ks, s, w, b, d);
      Ok(ClassDefObject(n, bs, ks, s, w, b, d))
  }

  /** The dict literal of `visit_ClassDef`, given its members' serialized values. */
  function ClassDefObject(n: Node, bs: seq<Json>, ks: Option<seq<Json>>, s: Json, w: Json, b: seq<Json>, d: seq<Json>): Json
    requires n.kind.ClassDef? && n.lineno.Some?
  {
    Object(map[KExpr := String("Definitions"), KType := String("ClassDef"), KName := String(n.kind.name), KBases := Array(bs), KKeywords := ArrayOrNull(ks), KStarargs := s, KKwargs := w,
       KBody := Array(b), KDecoratorList := Array(d), KPosition := Position(Number(n.lineno.value)), KDocstring := DocstringOf(n.kind.body)])
  }

  /** The layout and the members of `ClassDefObject`'s object. */
  lemma ClassDefObjectLayout(n: Node, bs: seq<Json>, ks: Option<seq<Json>>, s: Json, w: Json, b: seq<Json>, d: seq<Json>)
    requires n.kind.ClassDef? && n.lineno.Some?
    ensures var j := ClassDefObject(n, bs, ks, s, w, b, d);
      && ShapedBy(DefinitionRow(n.kind), n, j)
      && Get(j, KName) == Some(String(n.kind.name)) && Get(j, KBases) == Some(Array(bs))
      && Get(j, KKeywords) == Some(ArrayOrNull(ks)) && Get(j, KStarargs) == Some(s) && Get(j, KKwargs) == Some(w)
      && Get(j, KBody) == Some(Array(b)) && Get(j, KDecoratorList) == Some(Array(d))
  {}

  /** `visit_Module` (Serializer.py:773-782): the position is line 0 whatever
      the node says. */
  function VisitModule(n: Node, body: Result<seq<Json>, Error>): (r: Result<Json, Error>)
    requires n.kind.Module?
    ensures r.Ok? <==> body.Ok?
    ensures r.Ok? ==> ShapedBy(DefinitionRow(n.kind), n, r.value)
    ensures r.Ok? ==> body.Ok? && Get(r.value, KBody) == Some(Array(body.value))
  {
    var b :- body;
    ModuleObjectLayout(n, b);
    Ok(ModuleObject(n, b))
  }

  /** The dict literal of `visit_Module`, given its statements' serialized
      values. */
  function ModuleObject(n: Node, b: seq<Json>): Json
    requires n.kind.Module?
  {
    Object(map[KExpr := String("Definitions"), KType := String("Module"), KBody := Array(b), KPosition := Position(Number(0)), KDocstring := DocstringOf(n.kind.body)])
  }

  /** The layout and the members of `ModuleObject`'s object. */
  lemma ModuleObjectLayout(n: Node, b: seq<Json>)
    requires n.kind.Module?
    ensures var j := ModuleObject(n, b);
      && ShapedBy(DefinitionRow(n.kind), n, j)
      && Get(j, KBody) == Some(Array(b))
  {}
}
