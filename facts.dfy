/** Properties of `Serialize` that relate an object's members to the
    serialization of the node's children, and the layout rules for
    `position` and `docstring` every object follows. */
module SerializerFacts {
  import opened Results
  import opened JsonValue
  import opened PyAst
  import opened Layout
  import opened SerializerBase
  import opened Visitors
  import opened Serializer

  /** `v` is an array holding the nodes `xs` serialized one by one, in
      order. */
  predicate ElementWise(cfg: Config, v: Option<Json>, xs: seq<Node>) {
    && v.Some? && v.value.Array? && |v.value.items| == |xs|
    && forall i :: 0 <= i < |xs| ==> Serialize(cfg, xs[i]) == Ok(v.value.items[i])
  }

  /** `v` is the member a guarded child gives: null when the child is None,
      its serialization otherwise. */
  predicate GuardedChild(cfg: Config, v: Option<Json>, child: Option<Node>) {
    if child.None? then v == Some(Null)
    else Serialize(cfg, child.value).Ok? && v == Some(Serialize(cfg, child.value).value)
  }

  /** `v` is the member a guarded list gives: null when the attribute is
      missing, its elements serialized in order otherwise. */
  predicate GuardedElements(cfg: Config, v: Option<Json>, xs: OptNodes) {
    if xs.NoNodes? then v == Some(Null) else ElementWise(cfg, v, xs.nodes)
  }

  // -------- members built from children

  /** A number and a name serialize whatever their attributes hold. */
  lemma LeafSerializes(cfg: Config, n: Node)
    requires n.kind.Num? || n.kind.Name?
    ensures Serialize(cfg, n) == Ok(if n.kind.Num? then VisitNum(n) else VisitName(n))
  {
  }

  /** A list, tuple or set literal serializes exactly when all its elements
      do, and its `value` is their serializations in order; a missing `elts`
      gives a null `value`. */
  lemma SequenceLiteralElements(cfg: Config, n: Node)
    requires n.kind.List? || n.kind.Tuple? || n.kind.Set?
    ensures var r := Serialize(cfg, n);
      && (n.kind.elts.SomeNodes? ==>
            (r.Ok? <==> forall i :: 0 <= i < |n.kind.elts.nodes| ==> Serialize(cfg, n.kind.elts.nodes[i]).Ok?))
      && (n.kind.elts.SomeNodes? && r.Ok? ==> ElementWise(cfg, Get(r.value, KValue), n.kind.elts.nodes))
      && (n.kind.elts.NoNodes? ==> r.Ok? && Get(r.value, KValue) == Some(Null))
  {
  }

  /** A dict literal's `value` pairs keys and values position by position,
      stopping at the shorter list; a `**` entry (a None key) fails. */
  lemma DictPairs(cfg: Config, n: Node)
    requires n.kind.Dict? && n.kind.keys.SomeSlots? && n.kind.values.SomeNodes?
    ensures var r := Serialize(cfg, n);
      var ks := n.kind.keys.slots;
      var vs := n.kind.values.nodes;
      && ((exists i :: 0 <= i < |ks| && ks[i].None?) ==> r.Err?)
      && (r.Ok? ==>
            && Get(r.value, KValue).Some? && Get(r.value, KValue).value.Array?
            && var pairs := Get(r.value, KValue).value.items;
            && |pairs| == (if |ks| <= |vs| then |ks| else |vs|)
            && forall i :: 0 <= i < |pairs| ==>
                 && ks[i].Some? && Serialize(cfg, ks[i].value).Ok? && Serialize(cfg, vs[i]).Ok?
                 && pairs[i] == Array([Serialize(cfg, ks[i].value).value, Serialize(cfg, vs[i]).value]))
  {
  }

  /** A binary operation's `left` and `right` are its operands serialized
      (null for a None operand) and its `operator` is the operator's symbol;
      it fails for `is not`, `@` and a missing line number. */
  lemma BinOpMembers(cfg: Config, n: Node)
    requires n.kind.BinOp?
    ensures var r := Serialize(cfg, n);
      && (n.kind.op.Some? && !SerializeOp(n.kind.op.value).Ok? ==> r.Err?)
      && (n.lineno.None? ==> r.Err?)
      && (r.Ok? ==>
            && GuardedChild(cfg, Get(r.value, KLeft), n.kind.left)
            && GuardedChild(cfg, Get(r.value, KRight), n.kind.right)
            && Get(r.value, KOperator) == Some(if n.kind.op.Some? then String(OpSymbol(n.kind.op.value).value) else Null))
  {
  }

  /** A conditional expression maps `test`, `body` and `orelse` to `test`,
      `consequent` and `alternate`. */
  lemma IfExpMembers(cfg: Config, n: Node)
    requires n.kind.IfExp?
    ensures var r := Serialize(cfg, n);
      r.Ok? ==>
        && GuardedChild(cfg, Get(r.value, KTest), n.kind.test)
        && GuardedChild(cfg, Get(r.value, KConsequent), n.kind.bodyExpr)
        && GuardedChild(cfg, Get(r.value, KAlternate), n.kind.orelseExpr)
  {
  }

  /** An `if` statement's `consequent` and `alternate` are its two branches'
      statements serialized in order. */
  lemma IfBranches(cfg: Config, n: Node)
    requires n.kind.If?
    ensures var r := Serialize(cfg, n);
      r.Ok? ==>
        && n.kind.test.Some? && GuardedChild(cfg, Get(r.value, KTest), n.kind.test)
        && ElementWise(cfg, Get(r.value, KConsequent), n.kind.body)
        && ElementWise(cfg, Get(r.value, KAlternate), n.kind.orelse)
  {
    assert SectionOf(n.kind) == ControlFlow;
  }

  /** An assignment serializes exactly when its targets and its value do
      and it has a line number. */
  lemma AssignSerializes(cfg: Config, n: Node)
    requires n.kind.Assign?
    ensures Serialize(cfg, n).Ok? <==>
      && (forall i :: 0 <= i < |n.kind.targets| ==> Serialize(cfg, n.kind.targets[i]).Ok?)
      && n.kind.value.Some? && Serialize(cfg, n.kind.value.value).Ok? && n.lineno.Some?
  {
    assert SectionOf(n.kind) == Statements;
  }

  /** A serialized assignment's `targets` are its targets serialized in
      order and its `value` is its value serialized. */
  lemma AssignMembers(cfg: Config, n: Node)
    requires n.kind.Assign?
    ensures var r := Serialize(cfg, n);
      r.Ok? ==>
        && Get(r.value, KType) == Some(String("Assign"))
        && ElementWise(cfg, Get(r.value, KTargets), n.kind.targets)
        && GuardedChild(cfg, Get(r.value, KValue), n.kind.value)
  {
    assert SectionOf(n.kind) == Statements;
  }

  /** A module serializes exactly when all its statements do. */
  lemma ModuleSerializes(cfg: Config, n: Node)
    requires n.kind.Module?
    ensures Serialize(cfg, n).Ok? <==> forall i :: 0 <= i < |n.kind.body| ==> Serialize(cfg, n.kind.body[i]).Ok?
  {
    assert SectionOf(n.kind) == Definitions;
  }

  /** A serialized module's `body` is its statements' serializations in
      order (`PositionMember` and `DocstringMember` give its line 0 and its
      docstring). */
  lemma ModuleMembers(cfg: Config, n: Node)
    requires n.kind.Module?
    ensures var r := Serialize(cfg, n);
      r.Ok? ==>
        && Get(r.value, KType) == Some(String("Module"))
        && ElementWise(cfg, Get(r.value, KBody), n.kind.body)
  {
    assert SectionOf(n.kind) == Definitions;
  }

  /** The expressions with a single child read through `guard`: a None
      child gives a null member, a present one its serialization. */
  lemma GuardedChildMembers(cfg: Config, n: Node)
    requires n.kind.Starred? || n.kind.Expr? || n.kind.keyword? || n.kind.Attribute? || n.kind.UnaryOp?
    ensures var r := Serialize(cfg, n);
      r.Ok? ==>
        && (n.kind.UnaryOp? ==> GuardedChild(cfg, Get(r.value, KOperand), n.kind.operand))
        && (!n.kind.UnaryOp? ==> GuardedChild(cfg, Get(r.value, KValue), n.kind.value))
  {
  }

  /** The expressions with lists read through `guard`: a missing list gives
      a null member, a present one its elements serialized in order. */
  lemma GuardedListMembers(cfg: Config, n: Node)
    requires n.kind.BoolOp? || n.kind.Compare? || n.kind.Call?
    ensures var r := Serialize(cfg, n);
      r.Ok? ==>
        && (n.kind.BoolOp? ==> GuardedElements(cfg, Get(r.value, KValues), n.kind.values))
        && (n.kind.Compare? ==> && GuardedChild(cfg, Get(r.value, KLeft), n.kind.left)
                                && GuardedElements(cfg, Get(r.value, KComparators), n.kind.comparators))
        && (n.kind.Call? ==> && GuardedElements(cfg, Get(r.value, KArgs), n.kind.args)
                             && GuardedElements(cfg, Get(r.value, KKeywords), n.kind.keywords))
  {
  }

  /** A bare `return`, `yield` or `yield from` fails on its `value`: the
      method visits it directly. */
  lemma BareValueFails(cfg: Config, n: Node)
    requires n.kind.Return? || n.kind.Yield? || n.kind.YieldFrom?
    requires n.kind.value.None?
    ensures Serialize(cfg, n) ==
      Err(VisitNone(if n.kind.Return? then "Return" else if n.kind.Yield? then "Yield" else "YieldFrom", "value"))
  {
    assert SectionOf(n.kind) == Definitions;
  }

  /** A bare `except:` fails on its `type`: the method visits it directly
      and first. */
  lemma BareExceptFails(cfg: Config, n: Node)
    requires n.kind.ExceptHandler? && n.kind.exnType.None?
    ensures Serialize(cfg, n) == Err(VisitNone("ExceptHandler", "type"))
  {
    assert SectionOf(n.kind) == ControlFlow;
    assert Visit(cfg, n.kind.exnType, "ExceptHandler", "type").Err?;
  }

  /** A parameter without an annotation fails on it: the method visits it
      directly. */
  lemma BareArgFails(cfg: Config, n: Node)
    requires n.kind.arg? && n.kind.annotation.None?
    ensures Serialize(cfg, n) == Err(VisitNone("arg", "annotation"))
  {
    assert SectionOf(n.kind) == Definitions;
    assert Visit(cfg, n.kind.annotation, "arg", "annotation").Err?;
  }

  /** An index or a subscript without a value fails on it: the method
      visits it directly and first. */
  lemma SubscriptNoneFails(cfg: Config, n: Node)
    ensures var r := Serialize(cfg, n);
      && (n.kind.Index? && n.kind.value.None? ==> r == Err(VisitNone("Index", "value")))
      && (n.kind.Subscript? && n.kind.value.None? ==> r == Err(VisitNone("Subscript", "value")))
  {
  }

  /** A raise in the `exc`/`cause` layout: a bare `raise` fails on `exc`,
      which the method visits directly; otherwise `exc` is its exception
      serialized, and `cause` is guarded. */
  lemma RaiseMembers(cfg: Config, n: Node)
    requires n.kind.Raise?
    ensures n.kind.exc.None? && cfg.raiseShape.ExcCause? ==> Serialize(cfg, n) == Err(VisitNone("Raise", "exc"))
    ensures var r := Serialize(cfg, n);
      r.Ok? ==>
        && cfg.raiseShape.ExcCause? && n.kind.exc.Some?
        && GuardedChild(cfg, Get(r.value, KExc), n.kind.exc)
        && GuardedChild(cfg, Get(r.value, KCause), n.kind.cause)
  {
    assert SectionOf(n.kind) == Statements;
  }

  /** A serialized parameter list: the parameters and the defaults are
      serialized in order, and the keyword-only ones are guarded. */
  lemma ArgumentsMembers(cfg: Config, n: Node)
    requires n.kind.arguments?
    ensures var r := Serialize(cfg, n);
      r.Ok? ==>
        && ElementWise(cfg, Get(r.value, KArgs), n.kind.params)
        && GuardedElements(cfg, Get(r.value, KKwonlyargs), n.kind.kwonlyargs)
        && ElementWise(cfg, Get(r.value, KDefaults), n.kind.defaults)
  {
    assert SectionOf(n.kind) == Definitions;
  }

  /** A serialized parameter list's `vararg` and `kwarg` are `arg` nodes
      or absent, and their members are what `VisitIdOrNode` makes of them:
      null when absent, the node's serialization otherwise. */
  lemma VariadicMembers(cfg: Config, n: Node)
    requires n.kind.arguments?
    ensures var r := Serialize(cfg, n);
      r.Ok? ==>
        && !n.kind.vararg.Id? && Get(r.value, KVararg).Some?
        && VisitIdOrNode(cfg, n.kind.vararg, "arguments", "vararg") == Ok(Get(r.value, KVararg).value)
        && !n.kind.kwarg.Id? && Get(r.value, KKwarg).Some?
        && VisitIdOrNode(cfg, n.kind.kwarg, "arguments", "kwarg") == Ok(Get(r.value, KKwarg).value)
  {
    assert SectionOf(n.kind) == Definitions;
  }

  /** A serialized exception handler: `type` is its exception type
      serialized, `name` is the bound identifier or
      null, and `body` is its statements serialized in order. */
  lemma ExceptHandlerMembers(cfg: Config, n: Node)
    requires n.kind.ExceptHandler?
    ensures var r := Serialize(cfg, n);
      r.Ok? ==>
        && n.kind.exnType.Some? && GuardedChild(cfg, Get(r.value, KExnType), n.kind.exnType)
        && Get(r.value, KName) == Some(if n.kind.boundName.Id? then String(n.kind.boundName.text) else Null)
        && ElementWise(cfg, Get(r.value, KBody), n.kind.body)
  {
    assert SectionOf(n.kind) == ControlFlow;
    var e := Visit(cfg, n.kind.exnType, "ExceptHandler", "type");
    assert n.kind.exnType.Some? ==> e == Serialize(cfg, n.kind.exnType.value);
  }

  /** The attributes whose type differs between the two grammar
      generations: a Python 2 handler's bound name (a node, placed
      unserialized) and a Python 2 `vararg` or `kwarg` (an identifier,
      which has no fields to visit) make the node fail. */
  lemma GenerationMismatchFails(cfg: Config, n: Node)
    requires || (n.kind.ExceptHandler? && n.kind.boundName.IdNode?)
             || (n.kind.arguments? && (n.kind.vararg.Id? || n.kind.kwarg.Id?))
    ensures Serialize(cfg, n).Err?
  {
  }

  /** A call whose `func` is set never serializes: the function node is
      placed in the object unserialized. */
  lemma CallWithFunctionFails(cfg: Config, n: Node)
    requires n.kind.Call? && n.kind.func.Some?
    ensures Serialize(cfg, n).Err?
  {
  }

  // -------- position and docstring

  /** Every serialized object but a number's has a `docstring`: the
      docstring of a function, class or module body, and false for every
      other kind. */
  lemma {:induction false} DocstringMember(cfg: Config, n: Node)
    ensures var r := Serialize(cfg, n);
      r.Ok? ==>
        Get(r.value, KDocstring) ==
            (if n.kind.Num? then None
             else if n.kind.FunctionDef? || n.kind.ClassDef? || n.kind.Module? then Some(DocstringOf(n.kind.body))
             else Some(Bool(false)))
  {
    SerializeShaped(cfg, n);
    SerializeAlwaysFails(cfg, n);
    if !AlwaysFails(n.kind) {
      DocstringListed(n.kind);
    }
  }

  /** Every serialized object has a `position` holding its node's line,
      except a keyword argument, an imported name, a parameter list and a
      parameter; a module is at line 0, and a node without a line number
      gets a null line. */
  lemma {:induction false} PositionMember(cfg: Config, n: Node)
    ensures var r := Serialize(cfg, n);
      r.Ok? ==>
        Get(r.value, KPosition) ==
            (if n.kind.keyword? || n.kind.alias? || n.kind.arguments? || n.kind.arg? then None
             else if n.kind.Module? then Some(Position(Number(0)))
             else if n.lineno.Some? then Some(Position(Number(n.lineno.value)))
             else Some(Position(Null)))
  {
    SerializeShaped(cfg, n);
    SerializeAlwaysFails(cfg, n);
    if !AlwaysFails(n.kind) {
      PositionListed(n.kind);
    }
  }

  /** Of the kinds with a `position`, only literals and variables serialize
      without a line number; every other method reads `lineno` directly. */
  lemma LinenoRequired(cfg: Config, n: Node)
    requires n.lineno.None? && !n.kind.Module?
    requires SectionOf(n.kind) != Literals && SectionOf(n.kind) != Variables
    requires !(n.kind.keyword? || n.kind.alias? || n.kind.arguments? || n.kind.arg?)
    ensures Serialize(cfg, n).Err?
  {
  }
}
