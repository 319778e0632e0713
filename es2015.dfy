/**
 * The eleven enhancement layers of lib/types/ast-es2015.d.ts and their fold
 * into the ES2015 definition.
 *
 * Each layer lists only what it adds: new kinds, and new fields or wider
 * field types for kinds that already exist.  A layer that declares no
 * statement or expression kinds leaves that part missing (`None`).
 */
module Es2015 {
  import opened Definer
  import opened Grammar
  import Es5

  /** The `params` of a function: the binding patterns or an identifier. */
  const BindingParams: FieldType<Name> := {ArrayOf({
    Elem(BindingArrayPattern), Elem(BindingAssignmentPattern), Elem(BindingObjectPattern),
    Elem(BindingRestElement), Elem(Identifier)})}

  /** What an assignment pattern may write to. */
  const AssignmentTarget: FieldType<Name> := {
    NodeRef(AssignmentArrayPattern), NodeRef(AssignmentObjectPattern),
    NodeRef(BasicMemberExpression), NodeRef(ComputedMemberExpression), NodeRef(Identifier)}

  /** The key of a property that is not computed. */
  const StaticKey: FieldType<Name> :=
    {NodeRef(Identifier), NodeRef(NumberLiteral), NodeRef(StringLiteral)}

  //----------------------------------------------------------------------------
  // ArrowFunction (ECMA-262 6th edition, section 14.2)
  //----------------------------------------------------------------------------

  function ArrowFunctionNodes(k: Name): Option<Body<Name>>
  {
    match k
    case ArrowFunctionExpression => Some(map[
      "id" := {NodeRef(Identifier), NullMember},
      "params" := BindingParams,
      "body" := {NodeRef(BlockStatement), ExpressionRef}])
    case _ => None
  }

  const ArrowFunctionLayer: Enhancement<Name> := Enhancement(
    Some(map k | k in (set k: Name | ArrowFunctionNodes(k).Some?) :: ArrowFunctionNodes(k).value),
    None,
    Some({ArrowFunctionExpression}))

  //----------------------------------------------------------------------------
  // Class (ECMA-262 6th edition, section 14.5)
  //----------------------------------------------------------------------------

  function ClassNodes(k: Name): Option<Body<Name>>
  {
    match k
    case CallExpression => Some(map["callee" := {NodeRef(Super)}])
    case BasicMemberExpression => Some(map["object" := {NodeRef(Super)}])
    case ComputedMemberExpression => Some(map["object" := {NodeRef(Super)}])
    case ClassDeclaration => Some(map[
      "id" := {NodeRef(Identifier)},
      "superClass" := {ExpressionRef, NullMember},
      "body" := {NodeRef(ClassBody)}])
    case ClassExpression => Some(map[
      "id" := {NodeRef(Identifier), NullMember},
      "superClass" := {ExpressionRef, NullMember},
      "body" := {NodeRef(ClassBody)}])
    case MetaProperty => Some(map[
      "meta" := {NodeRef(Identifier)},
      "property" := {NodeRef(Identifier)}])
    case ClassBody => Some(map["body" := {ArrayOf({
      Elem(ComputedMethodDefinition), Elem(ConstructorDefinition), Elem(MethodDefinition)})}])
    case MethodDefinition => Some(map[
      "computed" := Flag(false),
      "kind" := {Lit("method"), Lit("get"), Lit("set")},
      "static" := Prim("boolean"),
      "key" := StaticKey,
      "value" := {NodeRef(FunctionExpression)}])
    case ConstructorDefinition => Some(map[
      "type" := TypeTag(MethodDefinition),
      "computed" := Flag(false),
      "kind" := {Lit("constructor")},
      "static" := Flag(false),
      "key" := {NodeRef(Identifier), NodeRef(StringLiteral)},
      "value" := {NodeRef(FunctionExpression)}])
    case ComputedMethodDefinition => Some(map[
      "type" := TypeTag(MethodDefinition),
      "computed" := Flag(true),
      "kind" := {Lit("method"), Lit("get"), Lit("set")},
      "static" := Prim("boolean"),
      "key" := {ExpressionRef},
      "value" := {NodeRef(FunctionExpression)}])
    case Super => Some(map[])
    case _ => None
  }

  const ClassLayer: Enhancement<Name> := Enhancement(
    Some(map k | k in (set k: Name | ClassNodes(k).Some?) :: ClassNodes(k).value),
    Some({ClassDeclaration}),
    Some({ClassExpression, MetaProperty}))

  //----------------------------------------------------------------------------
  // DestructuringAssignment (ECMA-262 6th edition, section 12.14.5)
  //----------------------------------------------------------------------------

  function DestructuringAssignmentNodes(k: Name): Option<Body<Name>>
  {
    match k
    case ForInStatement => Some(map["left" := {
      NodeRef(AssignmentArrayPattern), NodeRef(AssignmentObjectPattern)}])
    case AssignmentExpression => Some(map["left" := {
      NodeRef(AssignmentArrayPattern), NodeRef(AssignmentObjectPattern)}])
    case AssignmentArrayPattern => Some(map[
      "type" := TypeTag(ArrayPattern),
      "elements" := {ArrayOf({
        Elem(AssignmentArrayPattern), Elem(AssignmentAssignmentPattern),
        Elem(AssignmentObjectPattern), Elem(AssignmentRestElement),
        Elem(BasicMemberExpression), Elem(ComputedMemberExpression), Elem(Identifier), Null})}])
    case AssignmentAssignmentPattern => Some(map[
      "type" := TypeTag(AssignmentPattern),
      "left" := AssignmentTarget,
      "right" := {ExpressionRef}])
    case AssignmentProperty => Some(map[
      "type" := TypeTag(Property),
      "kind" := {Lit("init")},
      "computed" := Flag(false),
      "method" := Flag(false),
      "shorthand" := Flag(false),
      "key" := StaticKey,
      "value" := AssignmentTarget + {NodeRef(AssignmentAssignmentPattern)}])
    case AssignmentShorthandProperty => Some(map[
      "type" := TypeTag(Property),
      "kind" := {Lit("init")},
      "computed" := Flag(false),
      "method" := Flag(false),
      "shorthand" := Flag(true),
      "key" := {NodeRef(Identifier)},
      "value" := {NodeRef(Identifier)}])
    case AssignmentComputedProperty => Some(map[
      "type" := TypeTag(Property),
      "kind" := {Lit("init")},
      "computed" := Flag(true),
      "method" := Flag(false),
      "shorthand" := Flag(false),
      "key" := {ExpressionRef},
      "value" := AssignmentTarget + {NodeRef(AssignmentAssignmentPattern)}])
    case AssignmentObjectPattern => Some(map[
      "type" := TypeTag(ObjectPattern),
      "properties" := {ArrayOf({
        Elem(AssignmentComputedProperty), Elem(AssignmentProperty), Elem(AssignmentShorthandProperty)})}])
    case AssignmentRestElement => Some(map[
      "type" := TypeTag(RestElement),
      "argument" := AssignmentTarget])
    case _ => None
  }

  const DestructuringAssignmentLayer: Enhancement<Name> := Enhancement(
    Some(map k | k in (set k: Name | DestructuringAssignmentNodes(k).Some?) ::
      DestructuringAssignmentNodes(k).value),
    None,
    None)

  //----------------------------------------------------------------------------
  // DestructuringBinding (ECMA-262 6th edition, section 13.3.3)
  //----------------------------------------------------------------------------

  /** What a binding property or an assignment pattern binds. */
  const BindingTarget: FieldType<Name> :=
    {NodeRef(BindingArrayPattern), NodeRef(BindingObjectPattern), NodeRef(Identifier)}

  /** The patterns that the binding layer adds to the `params` of a function. */
  const PatternParams: FieldType<Name> := {ArrayOf({
    Elem(BindingArrayPattern), Elem(BindingAssignmentPattern),
    Elem(BindingObjectPattern), Elem(BindingRestElement)})}

  function DestructuringBindingNodes(k: Name): Option<Body<Name>>
  {
    match k
    case CatchClause => Some(map["param" := {NodeRef(BindingArrayPattern), NodeRef(BindingObjectPattern)}])
    case FunctionDeclaration => Some(map["params" := PatternParams])
    case FunctionExpression => Some(map["params" := PatternParams])
    case VariableDeclarator => Some(map["id" := {NodeRef(BindingArrayPattern), NodeRef(BindingObjectPattern)}])
    case BindingArrayPattern => Some(map[
      "type" := TypeTag(ArrayPattern),
      "elements" := {ArrayOf({
        Elem(BindingAssignmentPattern), Elem(BindingArrayPattern), Elem(BindingObjectPattern),
        Elem(BindingRestElement), Elem(Identifier), Null})}])
    case BindingAssignmentPattern => Some(map[
      "type" := TypeTag(AssignmentPattern),
      "left" := BindingTarget,
      "right" := {ExpressionRef}])
    case BindingProperty => Some(map[
      "type" := TypeTag(Property),
      "kind" := {Lit("init")},
      "computed" := Flag(false),
      "method" := Flag(false),
      "shorthand" := Flag(false),
      "key" := StaticKey,
      "value" := BindingTarget + {NodeRef(BindingAssignmentPattern)}])
    case BindingShorthandProperty => Some(map[
      "type" := TypeTag(Property),
      "kind" := {Lit("init")},
      "computed" := Flag(false),
      "method" := Flag(false),
      "shorthand" := Flag(true),
      "key" := {NodeRef(Identifier)},
      "value" := {NodeRef(Identifier)}])
    case BindingComputedProperty => Some(map[
      "type" := TypeTag(Property),
      "kind" := {Lit("init")},
      "computed" := Flag(true),
      "method" := Flag(false),
      "shorthand" := Flag(false),
      "key" := {ExpressionRef},
      "value" := BindingTarget + {NodeRef(BindingAssignmentPattern)}])
    case BindingObjectPattern => Some(map[
      "type" := TypeTag(ObjectPattern),
      "properties" := {ArrayOf({
        Elem(BindingComputedProperty), Elem(BindingProperty), Elem(BindingShorthandProperty)})}])
    case BindingRestElement => Some(map[
      "type" := TypeTag(RestElement),
      "argument" := {NodeRef(Identifier)}])
    case _ => None
  }

  const DestructuringBindingLayer: Enhancement<Name> := Enhancement(
    Some(map k | k in (set k: Name | DestructuringBindingNodes(k).Some?) ::
      DestructuringBindingNodes(k).value),
    None,
    None)

  //----------------------------------------------------------------------------
  // Iteration (ECMA-262 6th edition, sections 13.7.5 and 14.4)
  //----------------------------------------------------------------------------

  function IterationNodes(k: Name): Option<Body<Name>>
  {
    match k
    case FunctionDeclaration => Some(map["generator" := Prim("boolean")])
    case FunctionExpression => Some(map["generator" := Prim("boolean")])
    case ForOfStatement => Some(map[
      "left" := {
        NodeRef(AssignmentArrayPattern), NodeRef(AssignmentObjectPattern),
        NodeRef(BasicMemberExpression), NodeRef(ComputedMemberExpression),
        NodeRef(Identifier), NodeRef(VariableDeclaration)},
      "right" := {ExpressionRef},
      "body" := {StatementRef}])
    case YieldExpression => Some(map[
      "delegate" := Prim("boolean"),
      "argument" := {ExpressionRef, NullMember}])
    case _ => None
  }

  const IterationLayer: Enhancement<Name> := Enhancement(
    Some(map k | k in (set k: Name | IterationNodes(k).Some?) :: IterationNodes(k).value),
    Some({ForOfStatement}),
    Some({YieldExpression}))

  //----------------------------------------------------------------------------
  // LexicalBinding (ECMA-262 6th edition, section 13.3.1)
  //----------------------------------------------------------------------------

  function LexicalBindingNodes(k: Name): Option<Body<Name>>
  {
    match k
    case VariableDeclaration => Some(map["kind" := {Lit("var"), Lit("let"), Lit("const")}])
    case _ => None
  }

  const LexicalBindingLayer: Enhancement<Name> := Enhancement(
    Some(map k | k in (set k: Name | LexicalBindingNodes(k).Some?) :: LexicalBindingNodes(k).value),
    None,
    None)

  //----------------------------------------------------------------------------
  // Module (ECMA-262 6th edition, section 15.2)
  //----------------------------------------------------------------------------

  function ModuleNodes(k: Name): Option<Body<Name>>
  {
    match k
    case Program => Some(map["sourceType" := {Lit("script")}])
    case ModuleProgram => Some(map[
      "type" := TypeTag(Program),
      "sourceType" := {Lit("module")},
      "body" := {ArrayOf({
        StatementElem, Elem(ExportAllDeclaration), Elem(ExportDefaultDeclaration),
        Elem(ExportNamedDeclaration), Elem(ExportNamedFromDeclaration), Elem(ImportDeclaration)})},
      "comments" := {ArrayOf({Opaque("Comment")})},
      "tokens" := {ArrayOf({Opaque("Token")})}])
    case ExportAllDeclaration => Some(map["source" := {NodeRef(StringLiteral)}])
    case ExportDefaultDeclaration => Some(map["declaration" := {
      NodeRef(AnonymousDefaultExportedClassDeclaration),
      NodeRef(AnonymousDefaultExportedFunctionDeclaration),
      NodeRef(ClassDeclaration), NodeRef(FunctionDeclaration), ExpressionRef}])
    case ExportNamedDeclaration => Some(map[
      "type" := TypeTag(ExportNamedDeclaration),
      "declaration" := {NodeRef(ClassDeclaration), NodeRef(FunctionDeclaration), NodeRef(VariableDeclaration)},
      "specifiers" := {ArrayOf({})},
      "source" := {NullMember}])
    case ExportNamedFromDeclaration => Some(map[
      "type" := TypeTag(ExportNamedDeclaration),
      "declaration" := {NullMember},
      "specifiers" := {ArrayOf({Elem(ExportSpecifier)})},
      "source" := {NodeRef(StringLiteral)}])
    case ImportDeclaration => Some(map[
      "specifiers" := {ArrayOf({
        Elem(ImportSpecifier), Elem(ImportDefaultSpecifier), Elem(ImportNamespaceSpecifier)})},
      "source" := {NodeRef(StringLiteral)}])
    case AnonymousDefaultExportedClassDeclaration => Some(map[
      "type" := TypeTag(ClassDeclaration),
      "id" := {NullMember},
      "superClass" := {ExpressionRef, NullMember},
      "body" := {NodeRef(ClassBody)}])
    case AnonymousDefaultExportedFunctionDeclaration => Some(map[
      "type" := TypeTag(FunctionDeclaration),
      "generator" := Prim("boolean"),
      "id" := {NullMember},
      "params" := BindingParams,
      "body" := {NodeRef(BlockStatement)}])
    case ExportSpecifier => Some(map[
      "local" := {NodeRef(Identifier)},
      "exported" := {NodeRef(Identifier)}])
    case ImportDefaultSpecifier => Some(map["local" := {NodeRef(Identifier)}])
    case ImportNamespaceSpecifier => Some(map["local" := {NodeRef(Identifier)}])
    case ImportSpecifier => Some(map[
      "imported" := {NodeRef(Identifier)},
      "local" := {NodeRef(Identifier)}])
    case _ => None
  }

  const ModuleLayer: Enhancement<Name> := Enhancement(
    Some(map k | k in (set k: Name | ModuleNodes(k).Some?) :: ModuleNodes(k).value),
    None,
    None)

  //----------------------------------------------------------------------------
  // ObjectLiteralEnhancement (ECMA-262 6th edition, section 12.2.6)
  //----------------------------------------------------------------------------

  function ObjectLiteralNodes(k: Name): Option<Body<Name>>
  {
    match k
    case ObjectExpression => Some(map["properties" := {ArrayOf({
      Elem(MethodProperty), Elem(ShorthandProperty), Elem(ComputedProperty),
      Elem(ComputedAccessorProperty), Elem(ComputedMethodProperty)})}])
    case BasicProperty => Some(map["computed" := Flag(false), "method" := Flag(false), "shorthand" := Flag(false)])
    case AccessorProperty => Some(map["computed" := Flag(false), "method" := Flag(false), "shorthand" := Flag(false)])
    case MethodProperty => Some(map[
      "type" := TypeTag(Property),
      "kind" := {Lit("init")},
      "computed" := Flag(false),
      "method" := Flag(true),
      "shorthand" := Flag(false),
      "key" := StaticKey,
      "value" := {NodeRef(FunctionExpression)}])
    case ShorthandProperty => Some(map[
      "type" := TypeTag(Property),
      "kind" := {Lit("init")},
      "computed" := Flag(false),
      "method" := Flag(false),
      "shorthand" := Flag(true),
      "key" := {NodeRef(Identifier)},
      "value" := {NodeRef(Identifier)}])
    case ComputedProperty => Some(map[
      "type" := TypeTag(Property),
      "kind" := {Lit("init")},
      "computed" := Flag(true),
      "method" := Flag(false),
      "shorthand" := Flag(false),
      "key" := {ExpressionRef},
      "value" := {ExpressionRef}])
    case ComputedAccessorProperty => Some(map[
      "type" := TypeTag(Property),
      "kind" := {Lit("get"), Lit("set")},
      "computed" := Flag(true),
      "method" := Flag(false),
      "shorthand" := Flag(false),
      "key" := {ExpressionRef},
      "value" := {NodeRef(FunctionExpression)}])
    case ComputedMethodProperty => Some(map[
      "type" := TypeTag(Property),
      "kind" := {Lit("init")},
      "computed" := Flag(true),
      "method" := Flag(true),
      "shorthand" := Flag(false),
      "key" := {ExpressionRef},
      "value" := {NodeRef(FunctionExpression)}])
    case _ => None
  }

  const ObjectLiteralLayer: Enhancement<Name> := Enhancement(
    Some(map k | k in (set k: Name | ObjectLiteralNodes(k).Some?) :: ObjectLiteralNodes(k).value),
    None,
    None)

  //----------------------------------------------------------------------------
  // RegExpEnhancement (ECMA-262 6th edition, section 21.2)
  //----------------------------------------------------------------------------

  function RegExpNodes(k: Name): Option<Body<Name>>
  {
    match k
    case RegExpLiteral => Some(map["value" := {NullMember}])
    case _ => None
  }

  const RegExpLayer: Enhancement<Name> := Enhancement(
    Some(map k | k in (set k: Name | RegExpNodes(k).Some?) :: RegExpNodes(k).value),
    None,
    None)

  //----------------------------------------------------------------------------
  // Spread (ECMA-262 6th edition, sections 12.2.5 and 12.3.6)
  //----------------------------------------------------------------------------

  function SpreadNodes(k: Name): Option<Body<Name>>
  {
    match k
    case ArrayExpression => Some(map["elements" := {ArrayOf({Elem(SpreadElement)})}])
    case CallExpression => Some(map["arguments" := {ArrayOf({Elem(SpreadElement)})}])
    case NewExpression => Some(map["arguments" := {ArrayOf({Elem(SpreadElement)})}])
    case SpreadElement => Some(map["argument" := {ExpressionRef}])
    case _ => None
  }

  const SpreadLayer: Enhancement<Name> := Enhancement(
    Some(map k | k in (set k: Name | SpreadNodes(k).Some?) :: SpreadNodes(k).value),
    None,
    None)

  //----------------------------------------------------------------------------
  // TemplateLiteral (ECMA-262 6th edition, section 12.2.9)
  //----------------------------------------------------------------------------

  function TemplateLiteralNodes(k: Name): Option<Body<Name>>
  {
    match k
    case TaggedTemplateExpression => Some(map[
      "tag" := {ExpressionRef},
      "quasi" := {NodeRef(TemplateLiteral)}])
    case TemplateLiteral => Some(map[
      "quasis" := {ArrayOf({Elem(TemplateElement)})},
      "expressions" := {ArrayOf({ExpressionElem})}])
    case TemplateElement => Some(map[
      "tail" := Prim("boolean"),
      "value" := Prim("{ cooked: string; raw: string }")])
    case _ => None
  }

  const TemplateLiteralLayer: Enhancement<Name> := Enhancement(
    Some(map k | k in (set k: Name | TemplateLiteralNodes(k).Some?) :: TemplateLiteralNodes(k).value),
    None,
    Some({TaggedTemplateExpression, TemplateLiteral}))

  //----------------------------------------------------------------------------
  // The fold
  //----------------------------------------------------------------------------

  /** Layer `i` of the ES2015 definition, counted from 0 in the order in which it is applied. */
  function LayerAt(i: int): Enhancement<Name>
    requires 0 <= i < 11
  {
    if i == 0 then ArrowFunctionLayer
    else if i == 1 then ClassLayer
    else if i == 2 then DestructuringAssignmentLayer
    else if i == 3 then DestructuringBindingLayer
    else if i == 4 then IterationLayer
    else if i == 5 then LexicalBindingLayer
    else if i == 6 then ModuleLayer
    else if i == 7 then ObjectLiteralLayer
    else if i == 8 then RegExpLayer
    else if i == 9 then SpreadLayer
    else TemplateLiteralLayer
  }

  /** The eleven layers, in order. */
  const Layers: seq<Enhancement<Name>> := seq(11, LayerAt)

  /** `ASTDefinition` of ast-es2015.d.ts: ES5 extended by the eleven layers. */
  const ES2015: Definition<Name> := Extends(Es5.ES5, Layers)
}
