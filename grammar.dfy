/**
 * The names that the ESTree grammars of lib/types/ast-es5.d.ts and
 * lib/types/ast-es2015.d.ts use as node kinds and as `type` tags, and
 * shorthands for writing their field types.
 */
module Grammar {
  import opened Definer

  /**
   * Every node kind of the two grammars, followed by the names that occur
   * only as a declared `type` literal (several kinds share such a tag).
   */
  datatype Name =
    // ES5 root and statements
    | Program
    | BlockStatement | BreakStatement | ContinueStatement | DebuggerStatement
    | DoWhileStatement | EmptyStatement | ExpressionStatement | ForInStatement
    | ForStatement | FunctionDeclaration | IfStatement | LabeledStatement
    | ReturnStatement | SwitchStatement | ThrowStatement | TryStatement
    | VariableDeclaration | WhileStatement | WithStatement
    // ES5 expressions
    | ArrayExpression | AssignmentExpression | BinaryExpression | BooleanLiteral
    | CallExpression | ConditionalExpression | FunctionExpression | Identifier
    | LogicalExpression | BasicMemberExpression | ComputedMemberExpression
    | NewExpression | NullLiteral | NumberLiteral | ObjectExpression
    | RegExpLiteral | SequenceExpression | StringLiteral | ThisExpression
    | UnaryExpression | UpdateExpression
    // ES5 others
    | CatchClause | BasicProperty | AccessorProperty | SwitchCase | VariableDeclarator
    // ES2015 arrow functions and classes
    | ArrowFunctionExpression
    | ClassDeclaration | ClassExpression | MetaProperty | ClassBody
    | MethodDefinition | ConstructorDefinition | ComputedMethodDefinition | Super
    // ES2015 destructuring
    | AssignmentArrayPattern | AssignmentAssignmentPattern | AssignmentProperty
    | AssignmentShorthandProperty | AssignmentComputedProperty
    | AssignmentObjectPattern | AssignmentRestElement
    | BindingArrayPattern | BindingAssignmentPattern | BindingProperty
    | BindingShorthandProperty | BindingComputedProperty
    | BindingObjectPattern | BindingRestElement
    // ES2015 iteration
    | ForOfStatement | YieldExpression
    // ES2015 modules
    | ModuleProgram
    | ExportAllDeclaration | ExportDefaultDeclaration | ExportNamedDeclaration
    | ExportNamedFromDeclaration | ImportDeclaration
    | AnonymousDefaultExportedClassDeclaration | AnonymousDefaultExportedFunctionDeclaration
    | ExportSpecifier | ImportDefaultSpecifier | ImportNamespaceSpecifier | ImportSpecifier
    // ES2015 object literals, spread, template literals
    | MethodProperty | ShorthandProperty | ComputedProperty
    | ComputedAccessorProperty | ComputedMethodProperty
    | SpreadElement
    | TaggedTemplateExpression | TemplateLiteral | TemplateElement
    // Tags that name no kind of their own
    | Literal | MemberExpression | Property
    | ArrayPattern | AssignmentPattern | ObjectPattern | RestElement

  /**
   * The `type` tag that a node of each kind carries: the literal of its
   * declared `type` where it declares one, its own name otherwise.
   */
  function TagOf(k: Name): Name
  {
    match k
    case BooleanLiteral | NullLiteral | NumberLiteral | RegExpLiteral | StringLiteral => Literal
    case BasicMemberExpression | ComputedMemberExpression => MemberExpression
    case BasicProperty | AccessorProperty
       | AssignmentProperty | AssignmentShorthandProperty | AssignmentComputedProperty
       | BindingProperty | BindingShorthandProperty | BindingComputedProperty
       | MethodProperty | ShorthandProperty | ComputedProperty
       | ComputedAccessorProperty | ComputedMethodProperty => Property
    case ConstructorDefinition | ComputedMethodDefinition => MethodDefinition
    case AssignmentArrayPattern | BindingArrayPattern => ArrayPattern
    case AssignmentAssignmentPattern | BindingAssignmentPattern => AssignmentPattern
    case AssignmentObjectPattern | BindingObjectPattern => ObjectPattern
    case AssignmentRestElement | BindingRestElement => RestElement
    case ModuleProgram => Program
    case ExportNamedFromDeclaration => ExportNamedDeclaration
    case AnonymousDefaultExportedClassDeclaration => ClassDeclaration
    case AnonymousDefaultExportedFunctionDeclaration => FunctionDeclaration
    case _ => k
  }

  /** The kinds tagged `"MemberExpression"`. */
  lemma TagOfMemberExpression(k: Name)
    ensures TagOf(k).MemberExpression? <==>
      k.BasicMemberExpression? || k.ComputedMemberExpression? || k.MemberExpression?
  {
  }

  /** The kinds tagged `"Literal"`. */
  lemma TagOfLiteral(k: Name)
    ensures TagOf(k).Literal? <==>
      || k.BooleanLiteral? || k.NullLiteral? || k.NumberLiteral? || k.RegExpLiteral? || k.StringLiteral?
      || k.Literal?
  {
  }

  /** The kinds tagged `"Property"`. */
  lemma TagOfProperty(k: Name)
    ensures TagOf(k).Property? <==>
      || k.BasicProperty? || k.AccessorProperty?
      || k.AssignmentProperty? || k.AssignmentShorthandProperty? || k.AssignmentComputedProperty?
      || k.BindingProperty? || k.BindingShorthandProperty? || k.BindingComputedProperty?
      || k.MethodProperty? || k.ShorthandProperty? || k.ComputedProperty?
      || k.ComputedAccessorProperty? || k.ComputedMethodProperty?
      || k.Property?
  {
  }

  /** `Def.NodeRef<n>` as a union member. */
  function NodeRef(n: Name): Member<Name>
  {
    Plain(Ref(Kind(n)))
  }

  /** `Def.NodeRef<n>` as an array element. */
  function Elem(n: Name): Scalar<Name>
  {
    Ref(Kind(n))
  }

  /** `Def.NodeRef<"Statement">` and `Def.NodeRef<"Expression">` as members and elements. */
  const StatementRef: Member<Name> := Plain(Ref(AnyStatement))
  const ExpressionRef: Member<Name> := Plain(Ref(AnyExpression))
  const StatementElem: Scalar<Name> := Ref(AnyStatement)
  const ExpressionElem: Scalar<Name> := Ref(AnyExpression)

  const NullMember: Member<Name> := Plain(Null)

  /** A declared `type` literal naming tag `n`. */
  function TypeTag(n: Name): FieldType<Name>
  {
    {Plain(TagLit(n))}
  }

  /** A string literal type other than a tag. */
  function Lit(s: string): Member<Name>
  {
    Plain(Str(s))
  }

  /** The literal type `true` or `false`. */
  function Flag(b: bool): FieldType<Name>
  {
    {Plain(Bool(b))}
  }

  /** A type the model does not look into, such as `string` or `Comment`. */
  function Prim(name: string): FieldType<Name>
  {
    {Plain(Opaque(name))}
  }

  /** The union of string literal types drawn from a set of strings. */
  function Literals(ops: set<string>): (r: FieldType<Name>)
    ensures forall m :: m in r <==> m.Plain? && m.scalar.Str? && m.scalar.literal in ops
  {
    set s | s in ops :: Lit(s)
  }
}
