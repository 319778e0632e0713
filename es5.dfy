/**
 * The ES5 base grammar of lib/types/ast-es5.d.ts as a constant definition.
 */
module Es5 {
  import opened Definer
  import opened Grammar

  /** The key of the property kinds: Identifier, NumberLiteral or StringLiteral. */
  const PropertyKey: FieldType<Name> := {NodeRef(Identifier), NodeRef(NumberLiteral), NodeRef(StringLiteral)}

  /** The simple targets of an assignment or update. */
  const SimpleTarget: FieldType<Name> :=
    {NodeRef(Identifier), NodeRef(BasicMemberExpression), NodeRef(ComputedMemberExpression)}

  const AssignmentOperators: set<string> :=
    {"=", "+=", "-=", "*=", "/=", "%=", "<<=", ">>=", ">>>=", "|=", "^=", "&="}

  const BinaryOperators: set<string> :=
    {"==", "!=", "===", "!==", "<", "<=", ">", ">=",
     "<<", ">>", ">>>", "|", "^", "&",
     "+", "-", "*", "/", "%",
     "in", "instanceof"}

  const LogicalOperators: set<string> := {"||", "&&"}

  const UnaryOperators: set<string> := {"-", "+", "!", "~", "typeof", "void", "delete"}

  const UpdateOperators: set<string> := {"++", "--"}

  /** The groups in which the ES5 kinds are declared here. */
  datatype Group =
    | RootAndBlocks | ControlTransfers | Loops | CompoundStatements
    | OperatorExpressions | LiteralExpressions | PrimaryExpressions | LeftHandSideExpressions
    | Others | NotEs5

  /** The group of each ES5 kind; `NotEs5` for the names that ES5 does not define. */
  function GroupOf(k: Name): Group
  {
    match k
    case Program | BlockStatement | DebuggerStatement | EmptyStatement | ExpressionStatement | VariableDeclaration => RootAndBlocks
    case BreakStatement | ContinueStatement | IfStatement | LabeledStatement | ReturnStatement | ThrowStatement => ControlTransfers
    case DoWhileStatement | ForInStatement | ForStatement | WhileStatement => Loops
    case FunctionDeclaration | SwitchStatement | TryStatement | WithStatement => CompoundStatements
    case AssignmentExpression | BinaryExpression | LogicalExpression | UnaryExpression | UpdateExpression => OperatorExpressions
    case BooleanLiteral | NullLiteral | NumberLiteral | RegExpLiteral | StringLiteral => LiteralExpressions
    case ArrayExpression | FunctionExpression | Identifier | ObjectExpression | SequenceExpression | ThisExpression => PrimaryExpressions
    case CallExpression | ConditionalExpression | BasicMemberExpression | ComputedMemberExpression | NewExpression => LeftHandSideExpressions
    case CatchClause | BasicProperty | AccessorProperty | SwitchCase | VariableDeclarator => Others
    case _ => NotEs5
  }

  /** The field map of each ES5 kind, looked up in its group. */
  function Es5Body(k: Name): Body<Name>
  {
    match GroupOf(k)
    case RootAndBlocks => RootAndBlockBody(k)
    case ControlTransfers => ControlBody(k)
    case Loops => LoopBody(k)
    case CompoundStatements => CompoundBody(k)
    case OperatorExpressions => OperatorBody(k)
    case LiteralExpressions => LiteralBody(k)
    case PrimaryExpressions => PrimaryBody(k)
    case LeftHandSideExpressions => LeftHandSideBody(k)
    case Others => OtherBody(k)
    case NotEs5 => map[]
  }

  /** The root, blocks, declarations and simple statements (ECMA-262 5.1 sections 12.1-12.4 and 12.15). */
  function RootAndBlockBody(k: Name): Body<Name>
  {
    match k
    case Program => map[
      "body" := {ArrayOf({StatementElem})},
      "comments" := {ArrayOf({Opaque("Comment")})},
      "tokens" := {ArrayOf({Opaque("Token")})}]
    case BlockStatement => map["body" := {ArrayOf({StatementElem})}]
    case DebuggerStatement => map[]
    case EmptyStatement => map[]
    case ExpressionStatement => map["expression" := {ExpressionRef}]
    case VariableDeclaration => map["declarations" := {ArrayOf({Elem(VariableDeclarator)})}]
    case _ => map[]
  }

  /** The statements that transfer control (ECMA-262 5.1 sections 12.5, 12.7-12.9, 12.12 and 12.13). */
  function ControlBody(k: Name): Body<Name>
  {
    match k
    case BreakStatement => map["label" := {NodeRef(Identifier), NullMember}]
    case ContinueStatement => map["label" := {NodeRef(Identifier), NullMember}]
    case IfStatement => map[
      "test" := {ExpressionRef},
      "consequent" := {StatementRef},
      "alternate" := {StatementRef, NullMember}]
    case LabeledStatement => map[
      "label" := {NodeRef(Identifier)},
      "body" := {StatementRef}]
    case ReturnStatement => map["argument" := {ExpressionRef, NullMember}]
    case ThrowStatement => map["argument" := {ExpressionRef}]
    case _ => map[]
  }

  /** The iteration statements (ECMA-262 5.1 section 12.6). */
  function LoopBody(k: Name): Body<Name>
  {
    match k
    case DoWhileStatement => map[
      "body" := {StatementRef},
      "test" := {ExpressionRef}]
    case ForInStatement => map[
      "left" := SimpleTarget + {NodeRef(VariableDeclaration)},
      "right" := {ExpressionRef},
      "body" := {StatementRef}]
    case ForStatement => map[
      "init" := {NodeRef(VariableDeclaration), ExpressionRef, NullMember},
      "test" := {ExpressionRef, NullMember},
      "update" := {ExpressionRef, NullMember},
      "body" := {StatementRef}]
    case WhileStatement => map[
      "test" := {ExpressionRef},
      "body" := {StatementRef}]
    case _ => map[]
  }

  /** The switch, try and with statements and function declarations (ECMA-262 5.1 sections 12.10, 12.11, 12.14 and 13). */
  function CompoundBody(k: Name): Body<Name>
  {
    match k
    case FunctionDeclaration => map[
      "id" := {NodeRef(Identifier)},
      "params" := {ArrayOf({Elem(Identifier)})},
      "body" := {NodeRef(BlockStatement)}]
    case SwitchStatement => map[
      "discriminant" := {ExpressionRef},
      "cases" := {ArrayOf({Elem(SwitchCase)})}]
    case TryStatement => map[
      "block" := {NodeRef(BlockStatement)},
      "handler" := {NodeRef(CatchClause), NullMember},
      "finalizer" := {NodeRef(BlockStatement), NullMember}]
    case WithStatement => map[
      "object" := {ExpressionRef},
      "body" := {StatementRef}]
    case _ => map[]
  }

  /** The expressions with an `operator` field. */
  function OperatorBody(k: Name): Body<Name>
  {
    match k
    case AssignmentExpression => map[
      "operator" := Literals(AssignmentOperators),
      "left" := SimpleTarget,
      "right" := {ExpressionRef}]
    case BinaryExpression => map[
      "operator" := Literals(BinaryOperators),
      "left" := {ExpressionRef},
      "right" := {ExpressionRef}]
    case LogicalExpression => map[
      "operator" := Literals(LogicalOperators),
      "left" := {ExpressionRef},
      "right" := {ExpressionRef}]
    case UnaryExpression => map[
      "operator" := Literals(UnaryOperators),
      "prefix" := Prim("boolean"),
      "argument" := {ExpressionRef}]
    case UpdateExpression => map[
      "operator" := Literals(UpdateOperators),
      "argument" := SimpleTarget,
      "prefix" := Prim("boolean")]
    case _ => map[]
  }

  /** The literal expressions, tagged `"Literal"`. */
  function LiteralBody(k: Name): Body<Name>
  {
    match k
    case BooleanLiteral => map[
      "type" := TypeTag(Literal),
      "value" := Prim("boolean"),
      "regex" := {Plain(Undefined)}]
    case NullLiteral => map[
      "type" := TypeTag(Literal),
      "value" := {NullMember},
      "regex" := {Plain(Undefined)}]
    case NumberLiteral => map[
      "type" := TypeTag(Literal),
      "value" := Prim("number"),
      "regex" := {Plain(Undefined)}]
    case RegExpLiteral => map[
      "type" := TypeTag(Literal),
      "value" := Prim("RegExp"),
      "regex" := Prim("{ pattern: string; flags: string }")]
    case StringLiteral => map[
      "type" := TypeTag(Literal),
      "value" := Prim("string"),
      "regex" := {Plain(Undefined)}]
    case _ => map[]
  }

  /** The primary expressions and function expressions (ECMA-262 5.1 sections 11.1 and 13). */
  function PrimaryBody(k: Name): Body<Name>
  {
    match k
    case ArrayExpression => map["elements" := {ArrayOf({ExpressionElem, Null})}]
    case FunctionExpression => map[
      "id" := {NodeRef(Identifier), NullMember},
      "params" := {ArrayOf({Elem(Identifier)})},
      "body" := {NodeRef(BlockStatement)}]
    case Identifier => map["name" := Prim("string")]
    case ObjectExpression => map[
      "properties" := {ArrayOf({Elem(BasicProperty), Elem(AccessorProperty)})}]
    case SequenceExpression => map["expressions" := {ArrayOf({ExpressionElem})}]
    case ThisExpression => map[]
    case _ => map[]
  }

  /** The member, call, new and conditional expressions (ECMA-262 5.1 sections 11.2 and 11.12). */
  function LeftHandSideBody(k: Name): Body<Name>
  {
    match k
    case CallExpression => map[
      "callee" := {ExpressionRef},
      "arguments" := {ArrayOf({ExpressionElem})}]
    case ConditionalExpression => map[
      "test" := {ExpressionRef},
      "alternate" := {ExpressionRef},
      "consequent" := {ExpressionRef}]
    case BasicMemberExpression => map[
      "type" := TypeTag(MemberExpression),
      "computed" := Flag(false),
      "object" := {ExpressionRef},
      "property" := {NodeRef(Identifier)}]
    case ComputedMemberExpression => map[
      "type" := TypeTag(MemberExpression),
      "computed" := Flag(true),
      "object" := {ExpressionRef},
      "property" := {ExpressionRef}]
    case NewExpression => map[
      "callee" := {ExpressionRef},
      "arguments" := {ArrayOf({ExpressionElem})}]
    case _ => map[]
  }

  /** The kinds that are neither statements nor expressions. */
  function OtherBody(k: Name): Body<Name>
  {
    match k
    case CatchClause => map[
      "param" := {NodeRef(Identifier)},
      "body" := {NodeRef(BlockStatement)}]
    case BasicProperty => map[
      "type" := TypeTag(Property),
      "kind" := {Lit("init")},
      "key" := PropertyKey,
      "value" := {ExpressionRef}]
    case AccessorProperty => map[
      "type" := TypeTag(Property),
      "kind" := {Lit("get"), Lit("set")},
      "key" := PropertyKey,
      "value" := {NodeRef(FunctionExpression)}]
    case SwitchCase => map[
      "test" := {ExpressionRef, NullMember},
      "consequent" := {ArrayOf({StatementElem})}]
    case VariableDeclarator => map[
      "id" := {NodeRef(Identifier)},
      "init" := {ExpressionRef, NullMember}]
    case _ => map[]
  }

  /** The ES5 kinds. */
  const Kinds: set<Name> := set k: Name | !GroupOf(k).NotEs5?

  /** `statementType`: the nineteen statement kinds. */
  const Statements: set<Name> := {
    BlockStatement, BreakStatement, ContinueStatement, DebuggerStatement,
    DoWhileStatement, EmptyStatement, ExpressionStatement, ForInStatement,
    ForStatement, FunctionDeclaration, IfStatement, LabeledStatement,
    ReturnStatement, SwitchStatement, ThrowStatement, TryStatement,
    VariableDeclaration, WhileStatement, WithStatement}

  /** `expressionType`: the twenty-one expression kinds. */
  const Expressions: set<Name> := {
    ArrayExpression, AssignmentExpression, BinaryExpression, BooleanLiteral,
    CallExpression, ConditionalExpression, FunctionExpression, Identifier,
    LogicalExpression, BasicMemberExpression, ComputedMemberExpression,
    NewExpression, NullLiteral, NumberLiteral, ObjectExpression,
    RegExpLiteral, SequenceExpression, StringLiteral, ThisExpression,
    UnaryExpression, UpdateExpression}

  /** `ASTDefinition` of ast-es5.d.ts. */
  const ES5: Definition<Name> :=
    Definition(map k | k in Kinds :: Es5Body(k), Statements, Expressions)
}
