# decod.es-parser, modelled in Dafny

decod.es-parser turns a Python source file into a JSON description of its
syntax tree. `ASTParser.parse` reads the file and parses it with Python's
`ast` module. It then hands the tree to `ASTSerializer`, a
`NodeTransformer` with one `visit_<Kind>` method per node kind. Each method
builds a dict with:

- an `expr` category and a `type` tag;
- the kind's own members;
- usually a `position` (`{line}`) and a `docstring`.

Operators become bare strings. `parse` wraps the outcome in an envelope:
success with the `ast`, an I/O failure, or a syntax failure.

This project models both pieces.

- **JSON values** (`json_value.dfy`). A JSON value is a datatype, and an
  object is a finite map from member names to values. The member names form
  a closed vocabulary, so they are an enumeration `Key`, and `Name` gives
  the text each one is rendered as.
- **The native tree** (`py_ast.dfy`). `Node` holds a `Kind` and a line
  number that may be missing. `Kind` has one constructor per kind the
  serializer has a method for, plus `SetComp` and `Other` for every other
  kind. An attribute that may be None is an `Option`. Where the code tests
  `hasattr`, the attribute is an `Option` of an `Option`: the outer one says
  the attribute exists, the inner one that it is not None. An attribute
  whose type changed between Python 2 and Python 3 (an exception handler's
  bound name, a parameter list's `vararg` and `kwarg`) is an `IdOrNode`:
  absent, an identifier, or a node.
- **The layout tables** (`layout.dfy`). `RowOf` gives, for every kind, the
  category, the tag and the member set its object carries. `Shaped` says an
  object follows its kind's row, including the `position` and `docstring`
  rules.
- **The visit methods** (`visitors.dfy`, `serializer_base.dfy`). There is
  one function per `visit_` method, over the outcomes of visiting the
  node's children. Each one states when it succeeds, that its object is
  laid out as its row prescribes, and what each of its members holds. The
  larger objects are built by a plain function whose layout lemma
  (`CallObjectLayout` and the like) states those members. The operator table comes with a decoder
  and a proof that it loses exactly three distinctions.
- **Dispatch and recursion** (`serializer.dfy`). `Serialize` is the
  dispatch, one function per section of the serializer. `Visit`,
  `GuardNode`, `VisitAll`, `GuardList`, `VisitSlots` and `VisitIdOrNode`
  express `self.visit`, `guard` and `map` over children. The section
  lemmas (`LiteralLayout` to `DefinitionLayout`) state what each dispatcher
  produces.
  - `SerializeShaped` proves that every object produced follows the
    tables.
  - `SerializeAlwaysFails` proves that the kinds without a working method
    never serialize.
- **Properties of `Serialize`** (`facts.dfy`). These tie an object's
  members to the serialization of the node's children: element-wise arrays,
  the dict `zip`, operands and branches, and guarded children that give
  null when None. They state which direct visits of None fail (a bare
  `return`, `yield` or `raise`, an `except:` without a type, a parameter
  without an annotation). They also cover the `position` and `docstring`
  rules.
- **The parser** (`parser.dfy`). `Outcome` is what `parse` answers, given
  the outcome of the read and the parser as parameters. The class
  `ASTParser` holds `filepath` and the `quote` field `parse` assigns, with
  the methods `Parse` and `Serialize`.

Where the code fails, the model returns `Err`. The code fails when it:

- visits None;
- reads an attribute the node lacks;
- maps over something that is not a list;
- calls `hasattr` with its arguments swapped;
- leaves a native node in the output, which `json.dumps` then rejects.

`parse` catches only I/O errors and `SyntaxError`. A serializer failure
therefore escapes it, and `Outcome` returns it as `Err`.

The model follows the code as written, including its evident slips:

- **List comprehensions.** `visit_ListComp` is defined twice, and the
  second definition wins. A list comprehension is therefore tagged
  `SetComp`, and a set comprehension has no method.
- **Irregular tags.** A dict comprehension is tagged `GeneratorExp`, an
  alias `ImportFrom` and an extended slice `Slice`.
- **Names.** A name's identifier is stored under `line`.
- **Docstrings.** A function, class or module without a docstring gets
  `docstring: null` (what `ast.get_docstring` returns), not `false`.
- **Unhandled kinds.** A kind without a method fails (`Unhandled`). The code
  passes the native node through, and `json.dumps` rejects it later.
  The model reports such a kind as a failure; it does not emit a generic
  fallback object.
- **Missing line numbers.** A literal or a variable without a line number
  gets a null line. A module always gets line 0. A keyword argument, an
  alias, a parameter list and a parameter have no `position` and never read
  `lineno`. Every other method reads `lineno` directly and fails without
  one. CPython gives no line number to `Index`, `Slice`, `ExtSlice` and
  `withitem` nodes, so `visit_Index`, `visit_ExtSlice` and `visit_withitem`
  fail on every tree CPython builds; the model keeps the line number
  optional and states this failure.
- **Direct visits of None.** `self.visit(None)` fails. So a bare `return`,
  `yield` or `yield from`, an `except:` without a type, and, under
  Python 3, a parameter without an annotation never serialize. A bare
  `raise` fails the same way in the `exc`/`cause` layout.
- **Grammar generations.** A Python 2 handler's bound name is a node; the
  code places it unserialized, and `json.dumps` rejects it. A Python 2
  `vararg` or `kwarg` is an identifier string, and visiting it fails.
  Both are modelled through `IdOrNode` and fail.
- **`Slice`** always fails, because `hasattr` is called with its
  arguments swapped.
- **`comprehension`, `Print`, `Assert` and `With`** always fail, because
  each reads an attribute its kind never has.
- **`Call`.** A call with a `func` fails, because the function node is
  placed in the object unserialized.
- **`IsNot`** has no method, because its method is spelt `visit_isNot`.

The `sys.version >= 3` test that picks one of the two `Raise` layouts is
replaced by a `Config` parameter. Under Python 2 the test compares a string
with an integer and is always true, so a Python 2 `Raise` (which has `type`,
`inst` and `tback`) fails on the missing `exc`. Under Python 3 the
comparison itself raises `TypeError`. The parameter keeps both layouts
available.

## Model

| member | source | states |
|---|---|---|
| SerializerBase.Strings | Serializer.py:734-754 | the `names` array has one string per identifier, in order |
| SerializerBase.Zip | Serializer.py:94-103 | Python 2 `zip`: as long as the shorter list, and the i-th entry pairs the i-th key with the i-th value |
| SerializerBase.SerializeOp | Serializer.py:786-840 | an operator becomes a bare string, its table symbol; it fails exactly for `IsNot` (the method is spelt `visit_isNot`) and `MatMult`, naming the operator |
| SerializerBase.VisitOps | Serializer.py:201-212 | a comparison's operators serialize exactly when each has a symbol, giving the symbols in order |
| SerializerBase.OpSymbol | Serializer.py:786-840 | an operator has a symbol exactly when it is neither `@` nor `is not`, and every symbol is non-empty |
| SerializerBase.VisitOp | Serializer.py:395 | `self.visit(node.op)` read directly: None fails, naming the kind and attribute; otherwise it succeeds exactly when the operator has a symbol, giving that symbol as a string |
| SerializerBase.GuardOps | Serializer.py:206 | a missing `ops` list gives none; a present one succeeds exactly when every operator has a symbol, giving the symbols in order |
| SerializerBase.MapPresent | Serializer.py:221-222 | `map` over a guarded child gives null when it is missing or None, and otherwise fails because a node is not iterable |
| SerializerBase.Canonical | Serializer.py:786-840 | the canonical operator has the same symbol as the original, and differs from it only for floor division, unary plus and unary minus |
| SerializerBase.SymbolRoundTrip | Serializer.py:786-840 | reading a symbol back gives the canonical form of its operator |
| SerializerBase.SharedSymbols | Serializer.py:786-840 | two operators share a symbol exactly when they have the same canonical form: `/` for Div and FloorDiv, `+` for Add and UAdd, `-` for Sub and USub |
| Layout.LiteralRow | Serializer.py:25-124 | every literal has a `position`, and every literal but a number has a `docstring` |
| Layout.VariableRow | Serializer.py:129-149 | names and starred expressions have a `position` and a `docstring` |
| Layout.ExpressionRow | Serializer.py:153-261 | every expression has a `docstring`, and all but a keyword argument have a `position` |
| Layout.SubscriptRow | Serializer.py:265-310 | every subscripting kind but `Slice` has a `position` and a `docstring` |
| Layout.ComprehensionRow | Serializer.py:314-374 | every comprehension kind that can serialize has a `position` and a `docstring` |
| Layout.StatementRow | Serializer.py:378-473 | every statement that can serialize has a `position` and a `docstring` |
| Layout.ImportRow | Serializer.py:478-509 | imports have a `docstring`, and all but an alias have a `position` |
| Layout.ControlFlowRow | Serializer.py:513-648 | every control-flow kind but `With` has a `position` and a `docstring` |
| Layout.DefinitionRow | Serializer.py:652-782 | definitions have a `docstring`, and all but a parameter list and a parameter have a `position` |
| Layout.DocstringListed | Serializer.py:25-33 | among the kinds that can serialize, the row lists `docstring` exactly when the kind is not a number |
| Layout.PositionListed | Serializer.py:229-699 | among the kinds that can serialize, the row lists `position` exactly when the kind is not `keyword`, `alias`, `arguments` or `arg` |
| Layout.DocstringOf | Serializer.py:773-782 | the docstring is a string exactly when the body starts with a bare string-literal statement, and then it is that literal's text; null otherwise |
| Visitors.VisitNum | Serializer.py:25-33 | a number is laid out as its row prescribes, holding its value or null |
| Visitors.VisitStr | Serializer.py:36-45 | a string is laid out as its row prescribes, holding its text or null |
| Visitors.VisitBytes | Serializer.py:48-57 | a bytes literal is laid out as its row prescribes, holding its text or null |
| Visitors.VisitList | Serializer.py:60-69 | succeeds exactly when its elements do; `value` is their array, or null when `elts` is missing |
| Visitors.VisitTuple | Serializer.py:72-81 | succeeds exactly when its elements do; `value` is their array, or null when `elts` is missing |
| Visitors.VisitSet | Serializer.py:83-92 | succeeds exactly when its elements do; `value` is their array, or null when `elts` is missing |
| Visitors.VisitDict | Serializer.py:94-103 | succeeds exactly when both lists are present and serialize; `value` is their `zip` |
| Visitors.VisitEllipsis | Serializer.py:105-113 | an ellipsis is laid out as its row prescribes |
| Visitors.VisitNameConstant | Serializer.py:115-124 | a named constant is laid out as its row prescribes, holding its boolean or null |
| Visitors.VisitName | Serializer.py:129-138 | a name is laid out as its row prescribes, with its identifier under `line` |
| Visitors.VisitStarred | Serializer.py:140-149 | succeeds exactly when its value does; `value` is that serialization |
| Visitors.VisitExpr | Serializer.py:153-162 | succeeds exactly when its value serializes and it has a line number; `value` is that serialization |
| Visitors.VisitUnaryOp | Serializer.py:164-174 | succeeds exactly when its operator has a symbol (or is None), its operand serializes and it has a line number; `operator` is the symbol (null for None) and `operand` the serialized operand |
| Visitors.VisitBinOp | Serializer.py:176-187 | succeeds exactly when the operator has a symbol (or is None), both operands serialize and it has a line number; `left`, `right` and `operator` are those serializations |
| Visitors.VisitBoolOp | Serializer.py:189-199 | succeeds exactly when its operator has a symbol (or is None), its values serialize and it has a line number; `operator` is the symbol and `values` their array, or null when missing |
| Visitors.VisitCompare | Serializer.py:201-212 | succeeds exactly when its left side, operators and comparators serialize and it has a line number; `left`, the operators' symbols in order and the comparators' array are its members |
| Visitors.VisitCall | Serializer.py:214-227 | succeeds exactly when the arguments and keywords serialize, `starargs`/`kwargs` are missing or None, there is a line number and there is no `func`; `function`, `starargs` and `kwargs` are then null and `args`/`keywords` the arrays (null when missing) |
| Visitors.VisitKeyword | Serializer.py:229-236 | succeeds exactly when its value does; `arg` is the keyword's name (or null) and `value` the serialized value; it has no `position` |
| Visitors.VisitIfExp | Serializer.py:238-249 | succeeds exactly when its three parts serialize and it has a line number; `test`, `consequent` and `alternate` are those serializations |
| Visitors.VisitAttribute | Serializer.py:251-261 | succeeds exactly when its value serializes and it has a line number; `value` is that serialization and `attribute` the attribute's name |
| Visitors.VisitSubscript | Serializer.py:265-275 | succeeds exactly when its value and slice serialize and it has a line number; a failing value is the failure; `value` and `slice` are the serializations |
| Visitors.VisitSlice | Serializer.py:277-288 | always fails; once `lower` serializes, the failure is the swapped `hasattr` on `upper` |
| Visitors.VisitIndex | Serializer.py:290-299 | succeeds exactly when its value serializes and it has a line number; a failing value is the failure; `value` is the serialization |
| Visitors.VisitExtSlice | Serializer.py:301-310 | succeeds exactly when its dimensions serialize and it has a line number; tagged `Slice`, with `dims` their array |
| Visitors.VisitListComp | Serializer.py:326-336 | succeeds exactly when its element and generators serialize and it has a line number; tagged `SetComp`, with `element` and the `generators` array |
| Visitors.VisitGeneratorExp | Serializer.py:338-348 | succeeds exactly when its element and generators serialize and it has a line number; `element` and the `generators` array are its members |
| Visitors.VisitDictComp | Serializer.py:350-361 | succeeds exactly when its key, value and generators serialize and it has a line number; tagged `GeneratorExp`, with `key`, `value` and the `generators` array |
| Visitors.VisitComprehension | Serializer.py:363-374 | always fails on a missing attribute (`node.key`) |
| Visitors.VisitAssign | Serializer.py:378-388 | succeeds exactly when its targets and value serialize and it has a line number; `targets` is their array and `value` the serialized value |
| Visitors.VisitAugAssign | Serializer.py:390-401 | succeeds exactly when its target, operator and value serialize and it has a line number; `target`, the operator's symbol and `value` are its members |
| Visitors.VisitPrint | Serializer.py:403-414 | always fails; once `dest` serializes, the failure is the missing `node.value` |
| Visitors.VisitAssert | Serializer.py:416-426 | always fails on a missing attribute |
| Visitors.VisitRaise | Serializer.py:428-451 | with the `exc`/`cause` layout, succeeds exactly when both serialize and it has a line number, a failing `exc` being the failure, and `exc`/`cause` are the serializations; with the other layout, fails on the missing `type` |
| Visitors.VisitRaiseLegacy | Serializer.py:428-451 | with the `excType`/`inst`/`tback` layout, succeeds exactly when all three serialize and it has a line number, and they are its members; with the other layout, fails on the missing `exc` |
| Visitors.VisitDelete | Serializer.py:454-463 | succeeds exactly when its targets serialize and it has a line number; `targets` is their array |
| Visitors.VisitPass | Serializer.py:465-473 | succeeds exactly when it has a line number |
| Visitors.VisitImport | Serializer.py:478-487 | succeeds exactly when its names serialize and it has a line number; `names` is their array |
| Visitors.VisitImportFrom | Serializer.py:489-500 | succeeds exactly when its names serialize and it has a line number; `module` (or null), the `names` array and `level` (or null) are its members |
| Visitors.VisitAlias | Serializer.py:502-509 | an alias is tagged `ImportFrom`, has no `position`, and holds its name and its `asname` (or null) |
| Visitors.VisitIf | Serializer.py:513-524 | succeeds exactly when its test and both branches serialize and it has a line number; `consequent` and `alternate` are the branches' arrays |
| Visitors.VisitFor | Serializer.py:526-538 | succeeds exactly when its target, iterator, body and `orelse` serialize and it has a line number; `target`, `iter` and the `body`/`orelse` arrays are its members |
| Visitors.VisitWhile | Serializer.py:541-552 | succeeds exactly when its test, body and `orelse` serialize and it has a line number; `test` and the `body`/`orelse` arrays are its members |
| Visitors.VisitBreak | Serializer.py:554-562 | succeeds exactly when it has a line number |
| Visitors.VisitContinue | Serializer.py:564-572 | succeeds exactly when it has a line number |
| Visitors.VisitTry | Serializer.py:574-586 | succeeds exactly when its four statement lists serialize and it has a line number; they are its four arrays |
| Visitors.VisitTryFinally | Serializer.py:588-598 | succeeds exactly when its body and `finalbody` serialize and it has a line number; they are its two arrays |
| Visitors.VisitTryExcept | Serializer.py:600-611 | succeeds exactly when its body, handlers and `orelse` serialize and it has a line number; they are its three arrays |
| Visitors.VisitExceptHandler | Serializer.py:613-624 | succeeds exactly when its exception type and body serialize, it has a line number and its bound name is not a node; a failing type is the failure; `type`, `name` (the identifier or null) and the `body` array are its members |
| Visitors.VisitWith | Serializer.py:626-636 | always fails on a missing attribute (`node.type`) |
| Visitors.VisitWithitem | Serializer.py:638-648 | succeeds exactly when its context expression serializes, it has no `optional_vars` and it has a line number; `context_expr` is the serialization and `optional_vars` null |
| Visitors.VisitFunctionDef | Serializer.py:652-665 | succeeds exactly when its parameters, body, decorators and return annotation serialize and it has a line number; the name, `args`, the `body` and `decorators` arrays and `returns` are its members |
| Visitors.VisitLambda | Serializer.py:667-677 | succeeds exactly when its parameters and body serialize and it has a line number; `args` and `body` are the serializations |
| Visitors.VisitArguments | Serializer.py:679-690 | succeeds exactly when its six parts serialize; `args` and `defaults` are arrays, `kwonlyargs`/`kw_defaults` arrays or null, `vararg`/`kwarg` the visited values; it has no `position` |
| Visitors.VisitArg | Serializer.py:692-699 | succeeds exactly when its annotation serializes, so an unannotated parameter fails with that failure; `arg` is the name and `annotation` the serialization |
| Visitors.VisitReturn | Serializer.py:701-710 | succeeds exactly when its value serializes and it has a line number, a failing value being the failure; `value` is the serialization |
| Visitors.VisitYield | Serializer.py:712-721 | succeeds exactly when its value serializes and it has a line number, a failing value being the failure; `value` is the serialization |
| Visitors.VisitYieldFrom | Serializer.py:723-732 | succeeds exactly when its value serializes and it has a line number, a failing value being the failure; `value` is the serialization |
| Visitors.VisitGlobal | Serializer.py:734-743 | succeeds exactly when it has a line number; `names` holds the identifiers as strings, in order |
| Visitors.VisitNonlocal | Serializer.py:745-754 | succeeds exactly when it has a line number; `names` holds the identifiers as strings, in order |
| Visitors.VisitClassDef | Serializer.py:756-771 | succeeds exactly when its bases, keywords, `starargs`, `kwargs`, body and decorators serialize and it has a line number; the name, the arrays (`keywords` null when missing) and the `starargs`/`kwargs` values are its members |
| Visitors.VisitModule | Serializer.py:773-782 | succeeds exactly when its body serializes; `body` is that array and the line is 0 |
| Serializer.VisitAll | Serializer.py:60-69 | `map(self.visit, xs)` succeeds exactly when every element serializes; the result has the same length and order, and a failure is the first failing element's |
| Serializer.VisitSlots | Serializer.py:94-103 | mapping over a list with None entries succeeds exactly when every entry is present and serializes, and then holds their serializations in order |
| Serializer.GuardList | Serializer.py:64 | a guarded `map` gives none when the attribute is missing; otherwise it succeeds exactly when every element serializes, holding their serializations in order |
| Serializer.GuardSlots | Serializer.py:688 | a guarded `map` over a list with None entries gives none when the attribute is missing; otherwise it succeeds exactly when every entry is present and serializes, holding their serializations in order |
| Serializer.VisitIdOrNode | Serializer.py:685-686 | an attribute whose type depends on the grammar generation: absent gives null, an identifier fails because it is not a node, and a node gives its serialization |
| Serializer.LiteralLayout | Serializer.py:25-124 | every literal object follows its row |
| Serializer.VariableLayout | Serializer.py:129-149 | every variable object follows its row |
| Serializer.ExpressionLayout | Serializer.py:153-261 | every expression object follows its row |
| Serializer.SubscriptLayout | Serializer.py:265-310 | every subscripting object follows its row, and `Slice` fails |
| Serializer.ComprehensionLayout | Serializer.py:314-374 | every comprehension object follows its row, and set comprehensions and `comprehension` fail |
| Serializer.StatementLayout | Serializer.py:378-473 | every statement object follows its row, and `Print` and `Assert` fail |
| Serializer.ImportLayout | Serializer.py:478-509 | every import object follows its row |
| Serializer.ControlFlowLayout | Serializer.py:513-648 | every control-flow object follows its row, and `With` fails |
| Serializer.DefinitionLayout | Serializer.py:652-782 | every definition object follows its row |
| Serializer.SerializeShaped | Serializer.py:6-782 | every object the serializer produces has exactly its kind's members, its fixed `expr`/`type` pair, and the `position` and `docstring` the rules give |
| Serializer.SerializeAlwaysFails | Serializer.py:277-636 | set comprehensions, unknown kinds, `Slice`, `comprehension`, `Print`, `Assert` and `With` never serialize |
| SerializerFacts.LeafSerializes | Serializer.py:25-138 | a number or a name always serializes |
| SerializerFacts.SequenceLiteralElements | Serializer.py:60-92 | a list, tuple or set serializes exactly when all its elements do; `value` holds their serializations in order, or null when `elts` is missing |
| SerializerFacts.DictPairs | Serializer.py:94-103 | a `**` entry fails; otherwise `value` has the shorter list's length, and its i-th entry pairs the i-th serialized key with the i-th serialized value |
| SerializerFacts.BinOpMembers | Serializer.py:176-187 | `left`/`right` are the serialized operands (null for None), `operator` is the symbol; `is not`, `@` and a missing line fail |
| SerializerFacts.IfExpMembers | Serializer.py:238-249 | `test`, `body` and `orelse` become `test`, `consequent` and `alternate`, each a serialized node |
| SerializerFacts.IfBranches | Serializer.py:513-524 | `consequent` and `alternate` are the two branches' statements serialized in order |
| SerializerFacts.AssignSerializes | Serializer.py:378-388 | an assignment serializes exactly when its targets and value do and it has a line |
| SerializerFacts.AssignMembers | Serializer.py:378-388 | a serialized assignment is tagged `Assign`; `targets` is element-wise and `value` is the serialized value |
| SerializerFacts.ModuleSerializes | Serializer.py:773-782 | a module serializes exactly when all its statements do |
| SerializerFacts.ModuleMembers | Serializer.py:773-782 | a serialized module is tagged `Module` and its `body` is element-wise |
| SerializerFacts.GuardedChildMembers | Serializer.py:15-20 | `guard` as the visitors use it: for a starred expression, an expression statement, a keyword argument, an attribute and a unary operation, the guarded child member is null when the child is None and its serialization otherwise |
| SerializerFacts.GuardedListMembers | Serializer.py:189-227 | for a boolean operation, a comparison and a call, each guarded list member is null when the list is missing and its elements serialized in order otherwise; a comparison's `left` is guarded the same way |
| SerializerFacts.BareValueFails | Serializer.py:701-732 | a bare `return`, `yield` or `yield from` fails on visiting its None `value` |
| SerializerFacts.BareExceptFails | Serializer.py:613-624 | an `except:` without a type fails on visiting its None `type` |
| SerializerFacts.BareArgFails | Serializer.py:692-699 | a parameter without an annotation fails on visiting its None `annotation` |
| SerializerFacts.SubscriptNoneFails | Serializer.py:265-299 | an index or a subscript whose value is None fails on visiting it |
| SerializerFacts.RaiseMembers | Serializer.py:428-451 | with the `exc`/`cause` layout a bare `raise` fails on `exc`; a serialized raise has the `exc`/`cause` layout, an exception, and `exc`/`cause` as its children serialized (null for a None cause) |
| SerializerFacts.ArgumentsMembers | Serializer.py:679-690 | a serialized parameter list has its parameters and defaults serialized in order, and its keyword-only parameters likewise or null when the attribute is missing |
| SerializerFacts.VariadicMembers | Serializer.py:679-690 | a serialized parameter list's `vararg` and `kwarg` were not identifiers, and each member is null when absent and the node's serialization otherwise |
| SerializerFacts.ExceptHandlerMembers | Serializer.py:613-624 | a serialized handler had a type, and holds it serialized, the bound identifier or null as `name`, and its statements serialized in order |
| SerializerFacts.GenerationMismatchFails | Serializer.py:613-690 | a Python 2 handler whose bound name is a node, or a Python 2 parameter list whose `vararg` or `kwarg` is an identifier, never serializes |
| SerializerFacts.CallWithFunctionFails | Serializer.py:214-227 | a call with a `func` never serializes |
| SerializerFacts.DocstringMember | Serializer.py:25-782 | a number has no `docstring`; a function, class or module has its body's docstring; every other kind has false |
| SerializerFacts.PositionMember | Serializer.py:25-782 | every object but a keyword argument, alias, parameter list or parameter has a `position`: line 0 for a module, and otherwise the node's line or null |
| SerializerFacts.LinenoRequired | Serializer.py:153-771 | outside literals, variables, the module and the four kinds without a position, a node without a line number never serializes |
| Parser.ModuleOf | Parser.py:39 | `ast.parse` gives a module over the parsed statements |
| Parser.ReadFailure | Parser.py:29-35 | the I/O failure envelope has exactly `success: false`, the message and the path |
| Parser.SyntaxFailure | Parser.py:48-60 | the syntax failure envelope has exactly `success: false`, the message, the `context`, the path and a `position` with `line` and `offset` |
| Parser.Success | Parser.py:37-46 | the success envelope has exactly `success: true`, `message: null`, the path and the `ast` |
| Parser.Outcome | Parser.py:22-60 | every envelope echoes the path and has a boolean `success`; `ast` is present exactly when `success` is true; a failure occurs exactly when the read and parse succeed and serialization fails |
| Parser.ReadFailureAnswer | Parser.py:23-35 | a failed read answers with `success: false`, the message and the path alone, whatever the parser and configuration, so the parser is never invoked |
| Parser.SyntaxFailureAnswer | Parser.py:48-60 | a syntax error answers with its message, context and position and no `ast`, whatever the configuration, so the serializer is never invoked |
| Parser.SuccessAnswer | Parser.py:37-46 | a parsed file answers with `success: true`, `message: null` and the serialized module exactly when every statement serializes |
| Parser.AssignOneStatement | Serializer.py:378-388 | `x = 1` serializes to an `Assign` whose `targets` is the name `x` and whose `value` is the number 1 at line 1 |
| Parser.AssignOneAnswer | Parser.py:37-46 | the program `x = 1` answers with success, and its `ast` is a `Module` whose body is that one statement serialized |
| Parser.ASTParser.constructor | Parser.py:18-19 | a new parser holds its path and no text yet |
| Parser.ASTParser.Parse | Parser.py:22-60 | answers as `Outcome` prescribes, and keeps the file's text in `quote` once the read succeeds |
| Parser.ASTParser.Serialize | Parser.py:63-64 | the serializer's result for the tree, laid out as the root's kind prescribes |

## Left out

- Reading the file (`open`/`read`/`close`, `os.strerror`) is an input
  outcome, and `ast.parse` is a function parameter. CPython's grammar is
  not modelled.
- Exceptions other than the ones `parse` catches are not modelled, for
  example a decoding error while reading or a `ValueError` from `ast.parse`
  on a null byte.
- `json.dumps` rendering, and so the member order and text of the answer,
  are not modelled: an object is a map. `Name` gives each member's rendered
  text, but its distinctness is not proved.
- Numbers are integers. Float and complex literals are not modelled.
- `ast.get_docstring`'s indentation clean-up (`inspect.cleandoc`) is left
  out. `DocstringOf` returns the literal text.
- `NodeTransformer`'s reflective dispatch is replaced by a match on the
  closed `Kind` datatype. Its `generic_visit` passthrough is modelled as the
  failure `Unhandled`, because the passed-through node fails when rendered.
- The `sys.version >= 3` comparison is replaced by the `Config` parameter
  that selects the `Raise` layout.
- `map` and `zip` are modelled as Python 2 builds them, as lists. Under
  Python 3 they produce iterators, which `json.dumps` rejects.
- A failure is modelled as an `Error` value naming the kind and attribute.
  The Python exception class and its message text are not modelled.
- Main.py is the command-line wrapper and is not part of this model. The
  unused `jsonpickle` import is not modelled either.
- Visitors.VisitStr: a Python 2 byte string that is not valid UTF-8 makes
  `json.dumps` raise; the model treats every string as text and does not
  model that failure.
- Visitors.VisitBytes: a `Bytes` node exists only under Python 3, where
  `json.dumps` rejects a `bytes` value whatever it holds; the model keeps
  the value as text and does not capture that failure.
- Failure order: the model reports a raw node (`RawNode`) and an unhandled
  kind (`Unhandled`) where the node is visited. The program raises for them
  only when `json.dumps` renders the answer, after every other visit has
  run. So when a raw node comes before a visit-time failure (a call with
  `func` followed by a bare `return`), the failure `Serialize`, `VisitAll`
  and the "a failing child is the failure" clauses of the visitors report
  differs from the exception the program raises. Whether the tree fails is
  the same.
- Serializer.SerializeShaped: it does not state the members beyond
  `expr`, `type`, `position` and `docstring`. The content of the other
  members is stated per kind in the visit functions and in the
  `SerializerFacts` lemmas, and only for the kinds listed there.
