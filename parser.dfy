/** The front end (`ASTParser` in Parser.py): read a source file, parse it
    with Python's own parser, serialize the tree, and wrap the outcome in a
    result envelope, the object `parse` renders as its JSON answer.

    Reading the file and `ast.parse` are outside the model: the outcome of
    the read is a parameter, and the parser is a function parameter from the
    text to its outcome. Only the failures the source catches become an
    envelope — an I/O error while reading and a `SyntaxError`; a failure of
    the serializer is not caught and is the model's `Err`. */
module Parser {
  import opened Results
  import opened JsonValue
  import opened PyAst
  import opened Layout
  import opened SerializerBase
  import opened Visitors
  import Serializer
  import opened SerializerFacts

  /** The outcome of opening and reading the file: its text, or the message
      `os.strerror` gives for the error number of the failure. */
  datatype ReadOutcome = ReadFail(reason: string) | ReadOk(text: string)

  /** The outcome of `ast.parse` on the text: the statements of the module it
      returns, or a `SyntaxError` with its message (`str(e)`), the text of
      the offending line and its line number and column, each of which the
      exception may leave None. */
  datatype ParseOutcome =
    | SyntaxFail(message: string, context: Option<string>, lineno: Option<int>, offset: Option<int>)
    | Parsed(body: seq<Node>)

  /** The tree `ast.parse` returns: a module, which has no line number. */
  function ModuleOf(body: seq<Node>): (m: Node)
    ensures m.kind.Module? && m.kind.body == body
  {
    Node(Module(body), None)
  }

  // -------- the three envelopes (Parser.py:29-60)

  /** The envelope of a failed read (Parser.py:29-35). */
  function ReadFailure(filepath: string, reason: string): (j: Json)
    ensures Keys(j) == {KSuccess, KMessage, KFilepath}
    ensures Get(j, KSuccess) == Some(Bool(false))
    ensures Get(j, KMessage) == Some(String(reason))
    ensures Get(j, KFilepath) == Some(String(filepath))
  {
    Object(map[KSuccess := Bool(false), KMessage := String(reason), KFilepath := String(filepath)])
  }

  /** The envelope of a syntax error (Parser.py:48-60): the message, the
      offending line's text as `context`, and the error's line and column
      under `position`, each null when the exception leaves it None. */
  function SyntaxFailure(filepath: string, message: string, context: Option<string>, lineno: Option<int>,
                         offset: Option<int>): (j: Json)
    ensures Keys(j) == {KSuccess, KMessage, KContext, KFilepath, KPosition}
    ensures Get(j, KSuccess) == Some(Bool(false))
    ensures Get(j, KMessage) == Some(String(message))
    ensures Get(j, KContext) == Some(NullableString(context))
    ensures Get(j, KFilepath) == Some(String(filepath))
    ensures Get(j, KPosition) == Some(Object(map[KLine := NullableNumber(lineno), KOffset := NullableNumber(offset)]))
  {
    Object(map[KSuccess := Bool(false), KMessage := String(message), KContext := NullableString(context),
               KFilepath := String(filepath),
               KPosition := Object(map[KLine := NullableNumber(lineno), KOffset := NullableNumber(offset)])])
  }

  /** The envelope of a serialized file (Parser.py:40-46). */
  function Success(filepath: string, ast: Json): (j: Json)
    ensures Keys(j) == {KSuccess, KMessage, KFilepath, KAst}
    ensures Get(j, KSuccess) == Some(Bool(true))
    ensures Get(j, KMessage) == Some(Null)
    ensures Get(j, KFilepath) == Some(String(filepath))
    ensures Get(j, KAst) == Some(ast)
  {
    Object(map[KSuccess := Bool(true), KMessage := Null, KFilepath := String(filepath), KAst := ast])
  }

  /** What `ASTParser(filepath).parse()` answers, given the outcome of
      reading the file and the parser: an envelope whose `success` member
      says whether it carries an `ast`, and which always echoes the path; or
      the serializer's failure, which happens only once the file has been
      read and parsed. */
  function Outcome(cfg: Config, filepath: string, read: ReadOutcome, parse: string -> ParseOutcome)
    : (r: Result<Json, Error>)
    ensures r.Ok? ==> Get(r.value, KFilepath) == Some(String(filepath))
    ensures r.Ok? ==> Get(r.value, KSuccess).Some? && Get(r.value, KSuccess).value.Bool?
    ensures r.Ok? ==> (KAst in Keys(r.value) <==> Get(r.value, KSuccess) == Some(Bool(true)))
    ensures r.Err? <==> read.ReadOk? && parse(read.text).Parsed?
                        && Serializer.Serialize(cfg, ModuleOf(parse(read.text).body)).Err?
  {
    match read
    case ReadFail(reason) => Ok(ReadFailure(filepath, reason))
    case ReadOk(text) =>
      match parse(text)
      case SyntaxFail(message, context, lineno, offset) => Ok(SyntaxFailure(filepath, message, context, lineno, offset))
      case Parsed(body) =>
        var ast :- Serializer.Serialize(cfg, ModuleOf(body));
        Ok(Success(filepath, ast))
  }

  // -------- properties of the envelope

  /** A failed read answers with the failure's message and the path alone,
      whatever the parser and the interpreter version: the parser is never
      invoked. */
  lemma ReadFailureAnswer(cfg: Config, cfg': Config, filepath: string, reason: string,
                          parse: string -> ParseOutcome, parse': string -> ParseOutcome)
    ensures Outcome(cfg, filepath, ReadFail(reason), parse) == Outcome(cfg', filepath, ReadFail(reason), parse')
    ensures var r := Outcome(cfg, filepath, ReadFail(reason), parse);
      && r.Ok? && Keys(r.value) == {KSuccess, KMessage, KFilepath}
      && Get(r.value, KSuccess) == Some(Bool(false)) && Get(r.value, KMessage) == Some(String(reason))
  {
  }

  /** A syntax error answers with the error's message, context and position
      and no `ast`, whatever the interpreter version: the serializer is never
      invoked. */
  lemma SyntaxFailureAnswer(cfg: Config, cfg': Config, filepath: string, text: string, parse: string -> ParseOutcome)
    requires parse(text).SyntaxFail?
    ensures Outcome(cfg, filepath, ReadOk(text), parse) == Outcome(cfg', filepath, ReadOk(text), parse)
    ensures var r := Outcome(cfg, filepath, ReadOk(text), parse);
      var e := parse(text);
      && r.Ok? && KAst !in Keys(r.value)
      && Get(r.value, KSuccess) == Some(Bool(false))
      && Get(r.value, KMessage) == Some(String(e.message))
      && Get(r.value, KContext) == Some(NullableString(e.context))
      && Get(r.value, KPosition) == Some(Object(map[KLine := NullableNumber(e.lineno), KOffset := NullableNumber(e.offset)]))
  {
  }

  /** A parsed file answers with success and the serialized module under
      `ast` exactly when the serializer handles every statement of the
      module; `ModuleMembers` describes that module object. */
  lemma {:induction false} SuccessAnswer(cfg: Config, filepath: string, text: string, parse: string -> ParseOutcome)
    requires parse(text).Parsed?
    ensures var r := Outcome(cfg, filepath, ReadOk(text), parse);
      var body := parse(text).body;
      && (r.Ok? <==> forall i :: 0 <= i < |body| ==> Serializer.Serialize(cfg, body[i]).Ok?)
      && (r.Ok? ==>
            && Keys(r.value) == {KSuccess, KMessage, KFilepath, KAst}
            && Get(r.value, KSuccess) == Some(Bool(true)) && Get(r.value, KMessage) == Some(Null)
            && Get(r.value, KAst) == Some(Serializer.Serialize(cfg, ModuleOf(body)).value))
  {
    ModuleSerializes(cfg, ModuleOf(parse(text).body));
    ModuleMembers(cfg, ModuleOf(parse(text).body));
  }

  /** The statement `x = 1` as `ast.parse` gives it: an assignment at line
      1 to the name `x` of the number 1. */
  predicate IsAssignOne(statement: Node) {
    statement == Node(Assign([Node(Name(Some("x")), Some(1))], Some(Node(Num(Some(1)), Some(1)))), Some(1))
  }

  /** The statement `x = 1` serializes to an assignment to a name, of the
      number 1 at line 1. */
  lemma {:induction false} AssignOneStatement(cfg: Config, statement: Node)
    requires IsAssignOne(statement)
    ensures var r := Serializer.Serialize(cfg, statement);
      && r.Ok? && Get(r.value, KType) == Some(String("Assign"))
      && Get(r.value, KTargets) == Some(Array([VisitName(statement.kind.targets[0])]))
      && Get(r.value, KValue) == Some(Object(map[KExpr := String("Literal"), KType := String("Number"),
                                                 KValue := Number(1), KPosition := Position(Number(1))]))
  {
    var target := statement.kind.targets[0];
    var one := statement.kind.value.value;
    LeafSerializes(cfg, target);
    LeafSerializes(cfg, one);
    AssignSerializes(cfg, statement);
    AssignMembers(cfg, statement);
    var targets := Get(Serializer.Serialize(cfg, statement).value, KTargets).value.items;
    assert targets == [targets[0]];
  }

  /** The program `x = 1` answers with success, and its `ast` is a module
      holding the one statement `AssignOneStatement` describes. */
  lemma {:induction false} AssignOneAnswer(cfg: Config, filepath: string, parse: string -> ParseOutcome, statement: Node)
    requires IsAssignOne(statement) && parse("x = 1\n") == Parsed([statement])
    ensures var r := Outcome(cfg, filepath, ReadOk("x = 1\n"), parse);
      && r.Ok? && Get(r.value, KSuccess) == Some(Bool(true)) && Get(r.value, KAst).Some?
      && var ast := Get(r.value, KAst).value;
      && Get(ast, KType) == Some(String("Module"))
      && ElementWise(cfg, Get(ast, KBody), [statement])
  {
    AssignOneStatement(cfg, statement);
    assert forall i :: 0 <= i < |[statement]| ==> Serializer.Serialize(cfg, [statement][i]).Ok?;
    SuccessAnswer(cfg, filepath, "x = 1\n", parse);
    ModuleSerializes(cfg, ModuleOf([statement]));
    ModuleMembers(cfg, ModuleOf([statement]));
  }

  /** The parser of one file (`ASTParser`): the path it was made for and,
      once a read has succeeded, the file's text (`self.quote`). */
  class ASTParser {
    const filepath: string
    var quote: Option<string>

    /** `ASTParser(filepath)` (Parser.py:18-19). */
    constructor (filepath: string)
      ensures this.filepath == filepath && quote.None?
    {
      this.filepath := filepath;
      quote := None;
    }

    /** `parse` (Parser.py:22-60): read the file, keeping its text, then
        parse and serialize it, answering as `Outcome` prescribes. */
    method Parse(cfg: Config, read: ReadOutcome, parse: string -> ParseOutcome) returns (r: Result<Json, Error>)
      modifies this
      ensures r == Outcome(cfg, filepath, read, parse)
      ensures quote == (if read.ReadOk? then Some(read.text) else old(quote))
    {
      if read.ReadFail? {
        return Ok(ReadFailure(filepath, read.reason));
      }
      quote := Some(read.text);
      var parsed := parse(quote.value);
      if parsed.SyntaxFail? {
        return Ok(SyntaxFailure(filepath, parsed.message, parsed.context, parsed.lineno, parsed.offset));
      }
      var serialized := Serialize(cfg, ModuleOf(parsed.body));
      if serialized.Err? {
        return Err(serialized.error);
      }
      return Ok(Success(filepath, serialized.value));
    }

    /** `serialize` (Parser.py:63-64): a fresh serializer visits the tree;
        the object it produces is laid out as the node's kind prescribes. */
    method Serialize(cfg: Config, root: Node) returns (r: Result<Json, Error>)
      ensures r == Serializer.Serialize(cfg, root)
      ensures r.Ok? ==> Shaped(root, r.value)
    {
      Serializer.SerializeShaped(cfg, root);
      r := Serializer.Serialize(cfg, root);
    }
  }
}
