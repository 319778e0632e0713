/**
 * What each layer of lib/types/ast-es2015.d.ts contributes, and the names
 * that the fields it contributes refer to, layer by layer.
 */
module Es2015Refs {
  import opened Definer
  import opened Grammar
  import opened Es2015

  const ArrowFunctionPart: Definition<Name> := Contribution(ArrowFunctionLayer)
  const ClassPart: Definition<Name> := Contribution(ClassLayer)
  const DestructuringAssignmentPart: Definition<Name> := Contribution(DestructuringAssignmentLayer)
  const DestructuringBindingPart: Definition<Name> := Contribution(DestructuringBindingLayer)
  const IterationPart: Definition<Name> := Contribution(IterationLayer)
  const LexicalBindingPart: Definition<Name> := Contribution(LexicalBindingLayer)
  const ModulePart: Definition<Name> := Contribution(ModuleLayer)
  const ObjectLiteralPart: Definition<Name> := Contribution(ObjectLiteralLayer)
  const RegExpPart: Definition<Name> := Contribution(RegExpLayer)
  const SpreadPart: Definition<Name> := Contribution(SpreadLayer)
  const TemplateLiteralPart: Definition<Name> := Contribution(TemplateLiteralLayer)

  /** The contribution of layer `i`. */
  function LayerPart(i: int): Definition<Name>
    requires 0 <= i < 11
  {
    Contribution(LayerAt(i))
  }

  /** The contributions of the eleven layers, in order. */
  function LayerParts(): seq<Definition<Name>>
  {
    seq(11, LayerPart)
  }

  lemma ContributionsOfLayers()
    ensures Contributions(Layers) == LayerParts()
  {
  }

  //----------------------------------------------------------------------------
  // ArrowFunction
  //----------------------------------------------------------------------------

  /** The names that the fields contributed by the ArrowFunction layer refer to. */
  function ArrowFunctionReferences(k: Name): set<TypeName<Name>>
  {
    match k
    case ArrowFunctionExpression =>
      {Kind(Identifier), Kind(BindingArrayPattern), Kind(BindingAssignmentPattern),
       Kind(BindingObjectPattern), Kind(BindingRestElement), Kind(BlockStatement),
       AnyExpression}
    case _ => {}
  }

  lemma ArrowFunctionPartNodes(p: Name)
    ensures p in ArrowFunctionPart.nodes <==> ArrowFunctionNodes(p).Some?
    ensures p in ArrowFunctionPart.nodes ==> ArrowFunctionPart.nodes[p] == ArrowFunctionNodes(p).value
  {
  }

  lemma ArrowFunctionBodies(p: Name, n: TypeName<Name>)
    requires ArrowFunctionNodes(p).Some? && Mentions(ArrowFunctionNodes(p).value, n)
    ensures n in ArrowFunctionReferences(p)
  {
  }

  /** Every name that a field contributed by the ArrowFunction layer refers to is listed in `ArrowFunctionReferences`. */
  lemma ArrowFunctionMentions(p: Name, n: TypeName<Name>)
    requires p in ArrowFunctionPart.nodes && Mentions(ArrowFunctionPart.nodes[p], n)
    ensures n in ArrowFunctionReferences(p)
  {
    ArrowFunctionPartNodes(p);
    ArrowFunctionBodies(p, n);
  }

  //----------------------------------------------------------------------------
  // Class
  //----------------------------------------------------------------------------

  /** The names that the fields contributed by the Class layer refer to. */
  function ClassReferences(k: Name): set<TypeName<Name>>
  {
    match k
    case CallExpression => {Kind(Super)}
    case BasicMemberExpression => {Kind(Super)}
    case ComputedMemberExpression => {Kind(Super)}
    case ClassDeclaration => {Kind(Identifier), AnyExpression, Kind(ClassBody)}
    case ClassExpression => {Kind(Identifier), AnyExpression, Kind(ClassBody)}
    case MetaProperty => {Kind(Identifier)}
    case ClassBody => {Kind(ComputedMethodDefinition), Kind(ConstructorDefinition), Kind(MethodDefinition)}
    case MethodDefinition =>
      {Kind(Identifier), Kind(NumberLiteral), Kind(StringLiteral), Kind(FunctionExpression)}
    case ConstructorDefinition => {Kind(Identifier), Kind(StringLiteral), Kind(FunctionExpression)}
    case ComputedMethodDefinition => {AnyExpression, Kind(FunctionExpression)}
    case _ => {}
  }

  lemma ClassCallExpressionMentions(n: TypeName<Name>)
    requires Mentions(ClassNodes(CallExpression).value, n)
    ensures n in ClassReferences(CallExpression)
  {
  }

  lemma ClassBasicMemberExpressionMentions(n: TypeName<Name>)
    requires Mentions(ClassNodes(BasicMemberExpression).value, n)
    ensures n in ClassReferences(BasicMemberExpression)
  {
  }

  lemma ClassComputedMemberExpressionMentions(n: TypeName<Name>)
    requires Mentions(ClassNodes(ComputedMemberExpression).value, n)
    ensures n in ClassReferences(ComputedMemberExpression)
  {
  }

  lemma ClassClassDeclarationMentions(n: TypeName<Name>)
    requires Mentions(ClassNodes(ClassDeclaration).value, n)
    ensures n in ClassReferences(ClassDeclaration)
  {
  }

  lemma ClassClassExpressionMentions(n: TypeName<Name>)
    requires Mentions(ClassNodes(ClassExpression).value, n)
    ensures n in ClassReferences(ClassExpression)
  {
  }

  lemma ClassMetaPropertyMentions(n: TypeName<Name>)
    requires Mentions(ClassNodes(MetaProperty).value, n)
    ensures n in ClassReferences(MetaProperty)
  {
  }

  lemma ClassClassBodyMentions(n: TypeName<Name>)
    requires Mentions(ClassNodes(ClassBody).value, n)
    ensures n in ClassReferences(ClassBody)
  {
  }

  lemma ClassMethodDefinitionMentions(n: TypeName<Name>)
    requires Mentions(ClassNodes(MethodDefinition).value, n)
    ensures n in ClassReferences(MethodDefinition)
  {
  }

  lemma ClassConstructorDefinitionMentions(n: TypeName<Name>)
    requires Mentions(ClassNodes(ConstructorDefinition).value, n)
    ensures n in ClassReferences(ConstructorDefinition)
  {
  }

  lemma ClassComputedMethodDefinitionMentions(n: TypeName<Name>)
    requires Mentions(ClassNodes(ComputedMethodDefinition).value, n)
    ensures n in ClassReferences(ComputedMethodDefinition)
  {
  }

  lemma ClassSuperMentions(n: TypeName<Name>)
    ensures !Mentions(ClassNodes(Super).value, n)
  {
  }

  lemma ClassPartNodes(p: Name)
    ensures p in ClassPart.nodes <==> ClassNodes(p).Some?
    ensures p in ClassPart.nodes ==> ClassPart.nodes[p] == ClassNodes(p).value
  {
  }

  lemma ClassBodies(p: Name, n: TypeName<Name>)
    requires ClassNodes(p).Some? && Mentions(ClassNodes(p).value, n)
    ensures n in ClassReferences(p)
  {
    if p.CallExpression? {
      ClassCallExpressionMentions(n);
    } else if p.BasicMemberExpression? {
      ClassBasicMemberExpressionMentions(n);
    } else if p.ComputedMemberExpression? {
      ClassComputedMemberExpressionMentions(n);
    } else if p.ClassDeclaration? {
      ClassClassDeclarationMentions(n);
    } else if p.ClassExpression? {
      ClassClassExpressionMentions(n);
    } else if p.MetaProperty? {
      ClassMetaPropertyMentions(n);
    } else if p.ClassBody? {
      ClassClassBodyMentions(n);
    } else if p.MethodDefinition? {
      ClassMethodDefinitionMentions(n);
    } else if p.ConstructorDefinition? {
      ClassConstructorDefinitionMentions(n);
    } else if p.ComputedMethodDefinition? {
      ClassComputedMethodDefinitionMentions(n);
    } else if p.Super? {
      ClassSuperMentions(n);
      assert false;
    }
  }

  /** Every name that a field contributed by the Class layer refers to is listed in `ClassReferences`. */
  lemma ClassMentions(p: Name, n: TypeName<Name>)
    requires p in ClassPart.nodes && Mentions(ClassPart.nodes[p], n)
    ensures n in ClassReferences(p)
  {
    ClassPartNodes(p);
    ClassBodies(p, n);
  }

  //----------------------------------------------------------------------------
  // DestructuringAssignment
  //----------------------------------------------------------------------------

  /** The names that the fields contributed by the DestructuringAssignment layer refer to. */
  function DestructuringAssignmentReferences(k: Name): set<TypeName<Name>>
  {
    match k
    case ForInStatement => {Kind(AssignmentArrayPattern), Kind(AssignmentObjectPattern)}
    case AssignmentExpression => {Kind(AssignmentArrayPattern), Kind(AssignmentObjectPattern)}
    case AssignmentArrayPattern =>
      {Kind(AssignmentArrayPattern), Kind(AssignmentAssignmentPattern),
       Kind(AssignmentObjectPattern), Kind(AssignmentRestElement),
       Kind(BasicMemberExpression), Kind(ComputedMemberExpression), Kind(Identifier)}
    case AssignmentAssignmentPattern =>
      {Kind(AssignmentArrayPattern), Kind(AssignmentObjectPattern),
       Kind(BasicMemberExpression), Kind(ComputedMemberExpression), Kind(Identifier),
       AnyExpression}
    case AssignmentProperty =>
      {Kind(Identifier), Kind(NumberLiteral), Kind(StringLiteral),
       Kind(AssignmentArrayPattern), Kind(AssignmentObjectPattern),
       Kind(BasicMemberExpression), Kind(ComputedMemberExpression),
       Kind(AssignmentAssignmentPattern)}
    case AssignmentShorthandProperty => {Kind(Identifier)}
    case AssignmentComputedProperty =>
      {AnyExpression, Kind(AssignmentArrayPattern), Kind(AssignmentObjectPattern),
       Kind(BasicMemberExpression), Kind(ComputedMemberExpression), Kind(Identifier),
       Kind(AssignmentAssignmentPattern)}
    case AssignmentObjectPattern =>
      {Kind(AssignmentComputedProperty), Kind(AssignmentProperty), Kind(AssignmentShorthandProperty)}
    case AssignmentRestElement =>
      {Kind(AssignmentArrayPattern), Kind(AssignmentObjectPattern),
       Kind(BasicMemberExpression), Kind(ComputedMemberExpression), Kind(Identifier)}
    case _ => {}
  }

  lemma DestructuringAssignmentForInStatementMentions(n: TypeName<Name>)
    requires Mentions(DestructuringAssignmentNodes(ForInStatement).value, n)
    ensures n in DestructuringAssignmentReferences(ForInStatement)
  {
  }

  lemma DestructuringAssignmentAssignmentExpressionMentions(n: TypeName<Name>)
    requires Mentions(DestructuringAssignmentNodes(AssignmentExpression).value, n)
    ensures n in DestructuringAssignmentReferences(AssignmentExpression)
  {
  }

  lemma DestructuringAssignmentAssignmentArrayPatternMentions(n: TypeName<Name>)
    requires Mentions(DestructuringAssignmentNodes(AssignmentArrayPattern).value, n)
    ensures n in DestructuringAssignmentReferences(AssignmentArrayPattern)
  {
  }

  lemma DestructuringAssignmentAssignmentAssignmentPatternMentions(n: TypeName<Name>)
    requires Mentions(DestructuringAssignmentNodes(AssignmentAssignmentPattern).value, n)
    ensures n in DestructuringAssignmentReferences(AssignmentAssignmentPattern)
  {
  }

  lemma DestructuringAssignmentAssignmentPropertyMentions(n: TypeName<Name>)
    requires Mentions(DestructuringAssignmentNodes(AssignmentProperty).value, n)
    ensures n in DestructuringAssignmentReferences(AssignmentProperty)
  {
  }

  lemma DestructuringAssignmentAssignmentShorthandPropertyMentions(n: TypeName<Name>)
    requires Mentions(DestructuringAssignmentNodes(AssignmentShorthandProperty).value, n)
    ensures n in DestructuringAssignmentReferences(AssignmentShorthandProperty)
  {
  }

  lemma DestructuringAssignmentAssignmentComputedPropertyMentions(n: TypeName<Name>)
    requires Mentions(DestructuringAssignmentNodes(AssignmentComputedProperty).value, n)
    ensures n in DestructuringAssignmentReferences(AssignmentComputedProperty)
  {
  }

  lemma DestructuringAssignmentAssignmentObjectPatternMentions(n: TypeName<Name>)
    requires Mentions(DestructuringAssignmentNodes(AssignmentObjectPattern).value, n)
    ensures n in DestructuringAssignmentReferences(AssignmentObjectPattern)
  {
  }

  lemma DestructuringAssignmentAssignmentRestElementMentions(n: TypeName<Name>)
    requires Mentions(DestructuringAssignmentNodes(AssignmentRestElement).value, n)
    ensures n in DestructuringAssignmentReferences(AssignmentRestElement)
  {
  }

  lemma DestructuringAssignmentPartNodes(p: Name)
    ensures p in DestructuringAssignmentPart.nodes <==> DestructuringAssignmentNodes(p).Some?
    ensures p in DestructuringAssignmentPart.nodes ==> DestructuringAssignmentPart.nodes[p] == DestructuringAssignmentNodes(p).value
  {
  }

  lemma DestructuringAssignmentBodies(p: Name, n: TypeName<Name>)
    requires DestructuringAssignmentNodes(p).Some? && Mentions(DestructuringAssignmentNodes(p).value, n)
    ensures n in DestructuringAssignmentReferences(p)
  {
    if p.ForInStatement? {
      DestructuringAssignmentForInStatementMentions(n);
    } else if p.AssignmentExpression? {
      DestructuringAssignmentAssignmentExpressionMentions(n);
    } else if p.AssignmentArrayPattern? {
      DestructuringAssignmentAssignmentArrayPatternMentions(n);
    } else if p.AssignmentAssignmentPattern? {
      DestructuringAssignmentAssignmentAssignmentPatternMentions(n);
    } else if p.AssignmentProperty? {
      DestructuringAssignmentAssignmentPropertyMentions(n);
    } else if p.AssignmentShorthandProperty? {
      DestructuringAssignmentAssignmentShorthandPropertyMentions(n);
    } else if p.AssignmentComputedProperty? {
      DestructuringAssignmentAssignmentComputedPropertyMentions(n);
    } else if p.AssignmentObjectPattern? {
      DestructuringAssignmentAssignmentObjectPatternMentions(n);
    } else if p.AssignmentRestElement? {
      DestructuringAssignmentAssignmentRestElementMentions(n);
    }
  }

  /** Every name that a field contributed by the DestructuringAssignment layer refers to is listed in `DestructuringAssignmentReferences`. */
  lemma DestructuringAssignmentMentions(p: Name, n: TypeName<Name>)
    requires p in DestructuringAssignmentPart.nodes && Mentions(DestructuringAssignmentPart.nodes[p], n)
    ensures n in DestructuringAssignmentReferences(p)
  {
    DestructuringAssignmentPartNodes(p);
    DestructuringAssignmentBodies(p, n);
  }

  //----------------------------------------------------------------------------
  // DestructuringBinding
  //----------------------------------------------------------------------------

  /** The names that the fields contributed by the DestructuringBinding layer refer to. */
  function DestructuringBindingReferences(k: Name): set<TypeName<Name>>
  {
    match k
    case CatchClause => {Kind(BindingArrayPattern), Kind(BindingObjectPattern)}
    case FunctionDeclaration =>
      {Kind(BindingArrayPattern), Kind(BindingAssignmentPattern),
       Kind(BindingObjectPattern), Kind(BindingRestElement)}
    case FunctionExpression =>
      {Kind(BindingArrayPattern), Kind(BindingAssignmentPattern),
       Kind(BindingObjectPattern), Kind(BindingRestElement)}
    case VariableDeclarator => {Kind(BindingArrayPattern), Kind(BindingObjectPattern)}
    case BindingArrayPattern =>
      {Kind(BindingAssignmentPattern), Kind(BindingArrayPattern),
       Kind(BindingObjectPattern), Kind(BindingRestElement), Kind(Identifier)}
    case BindingAssignmentPattern =>
      {Kind(BindingArrayPattern), Kind(BindingObjectPattern), Kind(Identifier), AnyExpression}
    case BindingProperty =>
      {Kind(Identifier), Kind(NumberLiteral), Kind(StringLiteral),
       Kind(BindingArrayPattern), Kind(BindingObjectPattern),
       Kind(BindingAssignmentPattern)}
    case BindingShorthandProperty => {Kind(Identifier)}
    case BindingComputedProperty =>
      {AnyExpression, Kind(BindingArrayPattern), Kind(BindingObjectPattern),
       Kind(Identifier), Kind(BindingAssignmentPattern)}
    case BindingObjectPattern =>
      {Kind(BindingComputedProperty), Kind(BindingProperty), Kind(BindingShorthandProperty)}
    case BindingRestElement => {Kind(Identifier)}
    case _ => {}
  }

  lemma DestructuringBindingCatchClauseMentions(n: TypeName<Name>)
    requires Mentions(DestructuringBindingNodes(CatchClause).value, n)
    ensures n in DestructuringBindingReferences(CatchClause)
  {
  }

  lemma DestructuringBindingFunctionDeclarationMentions(n: TypeName<Name>)
    requires Mentions(DestructuringBindingNodes(FunctionDeclaration).value, n)
    ensures n in DestructuringBindingReferences(FunctionDeclaration)
  {
  }

  lemma DestructuringBindingFunctionExpressionMentions(n: TypeName<Name>)
    requires Mentions(DestructuringBindingNodes(FunctionExpression).value, n)
    ensures n in DestructuringBindingReferences(FunctionExpression)
  {
  }

  lemma DestructuringBindingVariableDeclaratorMentions(n: TypeName<Name>)
    requires Mentions(DestructuringBindingNodes(VariableDeclarator).value, n)
    ensures n in DestructuringBindingReferences(VariableDeclarator)
  {
  }

  lemma DestructuringBindingBindingArrayPatternMentions(n: TypeName<Name>)
    requires Mentions(DestructuringBindingNodes(BindingArrayPattern).value, n)
    ensures n in DestructuringBindingReferences(BindingArrayPattern)
  {
  }

  lemma DestructuringBindingBindingAssignmentPatternMentions(n: TypeName<Name>)
    requires Mentions(DestructuringBindingNodes(BindingAssignmentPattern).value, n)
    ensures n in DestructuringBindingReferences(BindingAssignmentPattern)
  {
  }

  lemma DestructuringBindingBindingPropertyMentions(n: TypeName<Name>)
    requires Mentions(DestructuringBindingNodes(BindingProperty).value, n)
    ensures n in DestructuringBindingReferences(BindingProperty)
  {
  }

  lemma DestructuringBindingBindingShorthandPropertyMentions(n: TypeName<Name>)
    requires Mentions(DestructuringBindingNodes(BindingShorthandProperty).value, n)
    ensures n in DestructuringBindingReferences(BindingShorthandProperty)
  {
  }

  lemma DestructuringBindingBindingComputedPropertyMentions(n: TypeName<Name>)
    requires Mentions(DestructuringBindingNodes(BindingComputedProperty).value, n)
    ensures n in DestructuringBindingReferences(BindingComputedProperty)
  {
  }

  lemma DestructuringBindingBindingObjectPatternMentions(n: TypeName<Name>)
    requires Mentions(DestructuringBindingNodes(BindingObjectPattern).value, n)
    ensures n in DestructuringBindingReferences(BindingObjectPattern)
  {
  }

  lemma DestructuringBindingBindingRestElementMentions(n: TypeName<Name>)
    requires Mentions(DestructuringBindingNodes(BindingRestElement).value, n)
    ensures n in DestructuringBindingReferences(BindingRestElement)
  {
  }

  lemma DestructuringBindingPartNodes(p: Name)
    ensures p in DestructuringBindingPart.nodes <==> DestructuringBindingNodes(p).Some?
    ensures p in DestructuringBindingPart.nodes ==> DestructuringBindingPart.nodes[p] == DestructuringBindingNodes(p).value
  {
  }

  lemma DestructuringBindingBodies(p: Name, n: TypeName<Name>)
    requires DestructuringBindingNodes(p).Some? && Mentions(DestructuringBindingNodes(p).value, n)
    ensures n in DestructuringBindingReferences(p)
  {
    if p.CatchClause? {
      DestructuringBindingCatchClauseMentions(n);
    } else if p.FunctionDeclaration? {
      DestructuringBindingFunctionDeclarationMentions(n);
    } else if p.FunctionExpression? {
      DestructuringBindingFunctionExpressionMentions(n);
    } else if p.VariableDeclarator? {
      DestructuringBindingVariableDeclaratorMentions(n);
    } else if p.BindingArrayPattern? {
      DestructuringBindingBindingArrayPatternMentions(n);
    } else if p.BindingAssignmentPattern? {
      DestructuringBindingBindingAssignmentPatternMentions(n);
    } else if p.BindingProperty? {
      DestructuringBindingBindingPropertyMentions(n);
    } else if p.BindingShorthandProperty? {
      DestructuringBindingBindingShorthandPropertyMentions(n);
    } else if p.BindingComputedProperty? {
      DestructuringBindingBindingComputedPropertyMentions(n);
    } else if p.BindingObjectPattern? {
      DestructuringBindingBindingObjectPatternMentions(n);
    } else if p.BindingRestElement? {
      DestructuringBindingBindingRestElementMentions(n);
    }
  }

  /** Every name that a field contributed by the DestructuringBinding layer refers to is listed in `DestructuringBindingReferences`. */
  lemma DestructuringBindingMentions(p: Name, n: TypeName<Name>)
    requires p in DestructuringBindingPart.nodes && Mentions(DestructuringBindingPart.nodes[p], n)
    ensures n in DestructuringBindingReferences(p)
  {
    DestructuringBindingPartNodes(p);
    DestructuringBindingBodies(p, n);
  }

  //----------------------------------------------------------------------------
  // Iteration
  //----------------------------------------------------------------------------

  /** The names that the fields contributed by the Iteration layer refer to. */
  function IterationReferences(k: Name): set<TypeName<Name>>
  {
    match k
    case ForOfStatement =>
      {Kind(AssignmentArrayPattern), Kind(AssignmentObjectPattern),
       Kind(BasicMemberExpression), Kind(ComputedMemberExpression), Kind(Identifier),
       Kind(VariableDeclaration), AnyExpression, AnyStatement}
    case YieldExpression => {AnyExpression}
    case _ => {}
  }

  lemma IterationFunctionDeclarationMentions(n: TypeName<Name>)
    ensures !Mentions(IterationNodes(FunctionDeclaration).value, n)
  {
  }

  lemma IterationFunctionExpressionMentions(n: TypeName<Name>)
    ensures !Mentions(IterationNodes(FunctionExpression).value, n)
  {
  }

  lemma IterationForOfStatementMentions(n: TypeName<Name>)
    requires Mentions(IterationNodes(ForOfStatement).value, n)
    ensures n in IterationReferences(ForOfStatement)
  {
  }

  lemma IterationYieldExpressionMentions(n: TypeName<Name>)
    requires Mentions(IterationNodes(YieldExpression).value, n)
    ensures n in IterationReferences(YieldExpression)
  {
  }

  lemma IterationPartNodes(p: Name)
    ensures p in IterationPart.nodes <==> IterationNodes(p).Some?
    ensures p in IterationPart.nodes ==> IterationPart.nodes[p] == IterationNodes(p).value
  {
  }

  lemma IterationBodies(p: Name, n: TypeName<Name>)
    requires IterationNodes(p).Some? && Mentions(IterationNodes(p).value, n)
    ensures n in IterationReferences(p)
  {
    if p.FunctionDeclaration? {
      IterationFunctionDeclarationMentions(n);
      assert false;
    } else if p.FunctionExpression? {
      IterationFunctionExpressionMentions(n);
      assert false;
    } else if p.ForOfStatement? {
      IterationForOfStatementMentions(n);
    } else if p.YieldExpression? {
      IterationYieldExpressionMentions(n);
    }
  }

  /** Every name that a field contributed by the Iteration layer refers to is listed in `IterationReferences`. */
  lemma IterationMentions(p: Name, n: TypeName<Name>)
    requires p in IterationPart.nodes && Mentions(IterationPart.nodes[p], n)
    ensures n in IterationReferences(p)
  {
    IterationPartNodes(p);
    IterationBodies(p, n);
  }

  //----------------------------------------------------------------------------
  // LexicalBinding
  //----------------------------------------------------------------------------

  /** The fields that the LexicalBinding layer contributes refer to no name. */
  lemma LexicalBindingMentionsNothing(p: Name, n: TypeName<Name>)
    requires p in LexicalBindingPart.nodes
    ensures !Mentions(LexicalBindingPart.nodes[p], n)
  {
  }

  lemma LexicalBindingPartNodes(p: Name)
    ensures p in LexicalBindingPart.nodes <==> LexicalBindingNodes(p).Some?
    ensures p in LexicalBindingPart.nodes ==> LexicalBindingPart.nodes[p] == LexicalBindingNodes(p).value
  {
  }

  //----------------------------------------------------------------------------
  // Module
  //----------------------------------------------------------------------------

  /** The names that the fields contributed by the Module layer refer to. */
  function ModuleReferences(k: Name): set<TypeName<Name>>
  {
    match k
    case ModuleProgram =>
      {AnyStatement, Kind(ExportAllDeclaration), Kind(ExportDefaultDeclaration),
       Kind(ExportNamedDeclaration), Kind(ExportNamedFromDeclaration),
       Kind(ImportDeclaration)}
    case ExportAllDeclaration => {Kind(StringLiteral)}
    case ExportDefaultDeclaration =>
      {Kind(AnonymousDefaultExportedClassDeclaration),
       Kind(AnonymousDefaultExportedFunctionDeclaration), Kind(ClassDeclaration),
       Kind(FunctionDeclaration), AnyExpression}
    case ExportNamedDeclaration =>
      {Kind(ClassDeclaration), Kind(FunctionDeclaration), Kind(VariableDeclaration)}
    case ExportNamedFromDeclaration => {Kind(ExportSpecifier), Kind(StringLiteral)}
    case ImportDeclaration =>
      {Kind(ImportSpecifier), Kind(ImportDefaultSpecifier), Kind(ImportNamespaceSpecifier),
       Kind(StringLiteral)}
    case AnonymousDefaultExportedClassDeclaration => {AnyExpression, Kind(ClassBody)}
    case AnonymousDefaultExportedFunctionDeclaration =>
      {Kind(BindingArrayPattern), Kind(BindingAssignmentPattern),
       Kind(BindingObjectPattern), Kind(BindingRestElement), Kind(Identifier),
       Kind(BlockStatement)}
    case ExportSpecifier => {Kind(Identifier)}
    case ImportDefaultSpecifier => {Kind(Identifier)}
    case ImportNamespaceSpecifier => {Kind(Identifier)}
    case ImportSpecifier => {Kind(Identifier)}
    case _ => {}
  }

  lemma ModuleProgramMentions(n: TypeName<Name>)
    ensures !Mentions(ModuleNodes(Program).value, n)
  {
  }

  lemma ModuleModuleProgramMentions(n: TypeName<Name>)
    requires Mentions(ModuleNodes(ModuleProgram).value, n)
    ensures n in ModuleReferences(ModuleProgram)
  {
  }

  lemma ModuleExportAllDeclarationMentions(n: TypeName<Name>)
    requires Mentions(ModuleNodes(ExportAllDeclaration).value, n)
    ensures n in ModuleReferences(ExportAllDeclaration)
  {
  }

  lemma ModuleExportDefaultDeclarationMentions(n: TypeName<Name>)
    requires Mentions(ModuleNodes(ExportDefaultDeclaration).value, n)
    ensures n in ModuleReferences(ExportDefaultDeclaration)
  {
  }

  lemma ModuleExportNamedDeclarationMentions(n: TypeName<Name>)
    requires Mentions(ModuleNodes(ExportNamedDeclaration).value, n)
    ensures n in ModuleReferences(ExportNamedDeclaration)
  {
  }

  lemma ModuleExportNamedFromDeclarationMentions(n: TypeName<Name>)
    requires Mentions(ModuleNodes(ExportNamedFromDeclaration).value, n)
    ensures n in ModuleReferences(ExportNamedFromDeclaration)
  {
  }

  lemma ModuleImportDeclarationMentions(n: TypeName<Name>)
    requires Mentions(ModuleNodes(ImportDeclaration).value, n)
    ensures n in ModuleReferences(ImportDeclaration)
  {
  }

  lemma ModuleAnonymousDefaultExportedClassDeclarationMentions(n: TypeName<Name>)
    requires Mentions(ModuleNodes(AnonymousDefaultExportedClassDeclaration).value, n)
    ensures n in ModuleReferences(AnonymousDefaultExportedClassDeclaration)
  {
  }

  lemma ModuleAnonymousDefaultExportedFunctionDeclarationMentions(n: TypeName<Name>)
    requires Mentions(ModuleNodes(AnonymousDefaultExportedFunctionDeclaration).value, n)
    ensures n in ModuleReferences(AnonymousDefaultExportedFunctionDeclaration)
  {
  }

  lemma ModuleExportSpecifierMentions(n: TypeName<Name>)
    requires Mentions(ModuleNodes(ExportSpecifier).value, n)
    ensures n in ModuleReferences(ExportSpecifier)
  {
  }

  lemma ModuleImportDefaultSpecifierMentions(n: TypeName<Name>)
    requires Mentions(ModuleNodes(ImportDefaultSpecifier).value, n)
    ensures n in ModuleReferences(ImportDefaultSpecifier)
  {
  }

  lemma ModuleImportNamespaceSpecifierMentions(n: TypeName<Name>)
    requires Mentions(ModuleNodes(ImportNamespaceSpecifier).value, n)
    ensures n in ModuleReferences(ImportNamespaceSpecifier)
  {
  }

  lemma ModuleImportSpecifierMentions(n: TypeName<Name>)
    requires Mentions(ModuleNodes(ImportSpecifier).value, n)
    ensures n in ModuleReferences(ImportSpecifier)
  {
  }

  lemma ModulePartNodes(p: Name)
    ensures p in ModulePart.nodes <==> ModuleNodes(p).Some?
    ensures p in ModulePart.nodes ==> ModulePart.nodes[p] == ModuleNodes(p).value
  {
  }

  lemma ModuleBodies(p: Name, n: TypeName<Name>)
    requires ModuleNodes(p).Some? && Mentions(ModuleNodes(p).value, n)
    ensures n in ModuleReferences(p)
  {
    if p.Program? {
      ModuleProgramMentions(n);
      assert false;
    } else if p.ModuleProgram? {
      ModuleModuleProgramMentions(n);
    } else if p.ExportAllDeclaration? {
      ModuleExportAllDeclarationMentions(n);
    } else if p.ExportDefaultDeclaration? {
      ModuleExportDefaultDeclarationMentions(n);
    } else if p.ExportNamedDeclaration? {
      ModuleExportNamedDeclarationMentions(n);
    } else if p.ExportNamedFromDeclaration? {
      ModuleExportNamedFromDeclarationMentions(n);
    } else if p.ImportDeclaration? {
      ModuleImportDeclarationMentions(n);
    } else if p.AnonymousDefaultExportedClassDeclaration? {
      ModuleAnonymousDefaultExportedClassDeclarationMentions(n);
    } else if p.AnonymousDefaultExportedFunctionDeclaration? {
      ModuleAnonymousDefaultExportedFunctionDeclarationMentions(n);
    } else if p.ExportSpecifier? {
      ModuleExportSpecifierMentions(n);
    } else if p.ImportDefaultSpecifier? {
      ModuleImportDefaultSpecifierMentions(n);
    } else if p.ImportNamespaceSpecifier? {
      ModuleImportNamespaceSpecifierMentions(n);
    } else if p.ImportSpecifier? {
      ModuleImportSpecifierMentions(n);
    }
  }

  /** Every name that a field contributed by the Module layer refers to is listed in `ModuleReferences`. */
  lemma ModuleMentions(p: Name, n: TypeName<Name>)
    requires p in ModulePart.nodes && Mentions(ModulePart.nodes[p], n)
    ensures n in ModuleReferences(p)
  {
    ModulePartNodes(p);
    ModuleBodies(p, n);
  }

  //----------------------------------------------------------------------------
  // ObjectLiteralEnhancement
  //----------------------------------------------------------------------------

  /** The names that the fields contributed by the ObjectLiteralEnhancement layer refer to. */
  function ObjectLiteralReferences(k: Name): set<TypeName<Name>>
  {
    match k
    case ObjectExpression =>
      {Kind(MethodProperty), Kind(ShorthandProperty), Kind(ComputedProperty),
       Kind(ComputedAccessorProperty), Kind(ComputedMethodProperty)}
    case MethodProperty =>
      {Kind(Identifier), Kind(NumberLiteral), Kind(StringLiteral), Kind(FunctionExpression)}
    case ShorthandProperty => {Kind(Identifier)}
    case ComputedProperty => {AnyExpression}
    case ComputedAccessorProperty => {AnyExpression, Kind(FunctionExpression)}
    case ComputedMethodProperty => {AnyExpression, Kind(FunctionExpression)}
    case _ => {}
  }

  lemma ObjectLiteralObjectExpressionMentions(n: TypeName<Name>)
    requires Mentions(ObjectLiteralNodes(ObjectExpression).value, n)
    ensures n in ObjectLiteralReferences(ObjectExpression)
  {
  }

  lemma ObjectLiteralBasicPropertyMentions(n: TypeName<Name>)
    ensures !Mentions(ObjectLiteralNodes(BasicProperty).value, n)
  {
  }

  lemma ObjectLiteralAccessorPropertyMentions(n: TypeName<Name>)
    ensures !Mentions(ObjectLiteralNodes(AccessorProperty).value, n)
  {
  }

  lemma ObjectLiteralMethodPropertyMentions(n: TypeName<Name>)
    requires Mentions(ObjectLiteralNodes(MethodProperty).value, n)
    ensures n in ObjectLiteralReferences(MethodProperty)
  {
  }

  lemma ObjectLiteralShorthandPropertyMentions(n: TypeName<Name>)
    requires Mentions(ObjectLiteralNodes(ShorthandProperty).value, n)
    ensures n in ObjectLiteralReferences(ShorthandProperty)
  {
  }

  lemma ObjectLiteralComputedPropertyMentions(n: TypeName<Name>)
    requires Mentions(ObjectLiteralNodes(ComputedProperty).value, n)
    ensures n in ObjectLiteralReferences(ComputedProperty)
  {
  }

  lemma ObjectLiteralComputedAccessorPropertyMentions(n: TypeName<Name>)
    requires Mentions(ObjectLiteralNodes(ComputedAccessorProperty).value, n)
    ensures n in ObjectLiteralReferences(ComputedAccessorProperty)
  {
  }

  lemma ObjectLiteralComputedMethodPropertyMentions(n: TypeName<Name>)
    requires Mentions(ObjectLiteralNodes(ComputedMethodProperty).value, n)
    ensures n in ObjectLiteralReferences(ComputedMethodProperty)
  {
  }

  lemma ObjectLiteralPartNodes(p: Name)
    ensures p in ObjectLiteralPart.nodes <==> ObjectLiteralNodes(p).Some?
    ensures p in ObjectLiteralPart.nodes ==> ObjectLiteralPart.nodes[p] == ObjectLiteralNodes(p).value
  {
  }

  lemma ObjectLiteralBodies(p: Name, n: TypeName<Name>)
    requires ObjectLiteralNodes(p).Some? && Mentions(ObjectLiteralNodes(p).value, n)
    ensures n in ObjectLiteralReferences(p)
  {
    if p.ObjectExpression? {
      ObjectLiteralObjectExpressionMentions(n);
    } else if p.BasicProperty? {
      ObjectLiteralBasicPropertyMentions(n);
      assert false;
    } else if p.AccessorProperty? {
      ObjectLiteralAccessorPropertyMentions(n);
      assert false;
    } else if p.MethodProperty? {
      ObjectLiteralMethodPropertyMentions(n);
    } else if p.ShorthandProperty? {
      ObjectLiteralShorthandPropertyMentions(n);
    } else if p.ComputedProperty? {
      ObjectLiteralComputedPropertyMentions(n);
    } else if p.ComputedAccessorProperty? {
      ObjectLiteralComputedAccessorPropertyMentions(n);
    } else if p.ComputedMethodProperty? {
      ObjectLiteralComputedMethodPropertyMentions(n);
    }
  }

  /** Every name that a field contributed by the ObjectLiteralEnhancement layer refers to is listed in `ObjectLiteralReferences`. */
  lemma ObjectLiteralMentions(p: Name, n: TypeName<Name>)
    requires p in ObjectLiteralPart.nodes && Mentions(ObjectLiteralPart.nodes[p], n)
    ensures n in ObjectLiteralReferences(p)
  {
    ObjectLiteralPartNodes(p);
    ObjectLiteralBodies(p, n);
  }

  //----------------------------------------------------------------------------
  // RegExpEnhancement
  //----------------------------------------------------------------------------

  /** The fields that the RegExpEnhancement layer contributes refer to no name. */
  lemma RegExpMentionsNothing(p: Name, n: TypeName<Name>)
    requires p in RegExpPart.nodes
    ensures !Mentions(RegExpPart.nodes[p], n)
  {
  }

  lemma RegExpPartNodes(p: Name)
    ensures p in RegExpPart.nodes <==> RegExpNodes(p).Some?
    ensures p in RegExpPart.nodes ==> RegExpPart.nodes[p] == RegExpNodes(p).value
  {
  }

  //----------------------------------------------------------------------------
  // Spread
  //----------------------------------------------------------------------------

  /** The names that the fields contributed by the Spread layer refer to. */
  function SpreadReferences(k: Name): set<TypeName<Name>>
  {
    match k
    case ArrayExpression => {Kind(SpreadElement)}
    case CallExpression => {Kind(SpreadElement)}
    case NewExpression => {Kind(SpreadElement)}
    case SpreadElement => {AnyExpression}
    case _ => {}
  }

  lemma SpreadArrayExpressionMentions(n: TypeName<Name>)
    requires Mentions(SpreadNodes(ArrayExpression).value, n)
    ensures n in SpreadReferences(ArrayExpression)
  {
  }

  lemma SpreadCallExpressionMentions(n: TypeName<Name>)
    requires Mentions(SpreadNodes(CallExpression).value, n)
    ensures n in SpreadReferences(CallExpression)
  {
  }

  lemma SpreadNewExpressionMentions(n: TypeName<Name>)
    requires Mentions(SpreadNodes(NewExpression).value, n)
    ensures n in SpreadReferences(NewExpression)
  {
  }

  lemma SpreadSpreadElementMentions(n: TypeName<Name>)
    requires Mentions(SpreadNodes(SpreadElement).value, n)
    ensures n in SpreadReferences(SpreadElement)
  {
  }

  lemma SpreadPartNodes(p: Name)
    ensures p in SpreadPart.nodes <==> SpreadNodes(p).Some?
    ensures p in SpreadPart.nodes ==> SpreadPart.nodes[p] == SpreadNodes(p).value
  {
  }

  lemma SpreadBodies(p: Name, n: TypeName<Name>)
    requires SpreadNodes(p).Some? && Mentions(SpreadNodes(p).value, n)
    ensures n in SpreadReferences(p)
  {
    if p.ArrayExpression? {
      SpreadArrayExpressionMentions(n);
    } else if p.CallExpression? {
      SpreadCallExpressionMentions(n);
    } else if p.NewExpression? {
      SpreadNewExpressionMentions(n);
    } else if p.SpreadElement? {
      SpreadSpreadElementMentions(n);
    }
  }

  /** Every name that a field contributed by the Spread layer refers to is listed in `SpreadReferences`. */
  lemma SpreadMentions(p: Name, n: TypeName<Name>)
    requires p in SpreadPart.nodes && Mentions(SpreadPart.nodes[p], n)
    ensures n in SpreadReferences(p)
  {
    SpreadPartNodes(p);
    SpreadBodies(p, n);
  }

  //----------------------------------------------------------------------------
  // TemplateLiteral
  //----------------------------------------------------------------------------

  /** The names that the fields contributed by the TemplateLiteral layer refer to. */
  function TemplateLiteralReferences(k: Name): set<TypeName<Name>>
  {
    match k
    case TaggedTemplateExpression => {AnyExpression, Kind(TemplateLiteral)}
    case TemplateLiteral => {Kind(TemplateElement), AnyExpression}
    case _ => {}
  }

  lemma TemplateLiteralPartNodes(p: Name)
    ensures p in TemplateLiteralPart.nodes <==> TemplateLiteralNodes(p).Some?
    ensures p in TemplateLiteralPart.nodes ==> TemplateLiteralPart.nodes[p] == TemplateLiteralNodes(p).value
  {
  }

  lemma TemplateLiteralBodies(p: Name, n: TypeName<Name>)
    requires TemplateLiteralNodes(p).Some? && Mentions(TemplateLiteralNodes(p).value, n)
    ensures n in TemplateLiteralReferences(p)
  {
  }

  /** Every name that a field contributed by the TemplateLiteral layer refers to is listed in `TemplateLiteralReferences`. */
  lemma TemplateLiteralMentions(p: Name, n: TypeName<Name>)
    requires p in TemplateLiteralPart.nodes && Mentions(TemplateLiteralPart.nodes[p], n)
    ensures n in TemplateLiteralReferences(p)
  {
    TemplateLiteralPartNodes(p);
    TemplateLiteralBodies(p, n);
  }

  /** Every name that some field contributed by the ArrowFunction layer refers to. */
  const ArrowFunctionReferenced: set<TypeName<Name>> :=
    {AnyExpression, Kind(BindingArrayPattern), Kind(BindingAssignmentPattern),
     Kind(BindingObjectPattern), Kind(BindingRestElement), Kind(BlockStatement),
     Kind(Identifier)}

  lemma ArrowFunctionMentionsReferenced(p: Name, n: TypeName<Name>)
    requires p in ArrowFunctionPart.nodes && Mentions(ArrowFunctionPart.nodes[p], n)
    ensures n in ArrowFunctionReferenced
  {
    ArrowFunctionMentions(p, n);
  }

  /** Every name that some field contributed by the Class layer refers to. */
  const ClassReferenced: set<TypeName<Name>> :=
    {AnyExpression, Kind(ClassBody), Kind(ComputedMethodDefinition),
     Kind(ConstructorDefinition), Kind(FunctionExpression), Kind(Identifier),
     Kind(MethodDefinition), Kind(NumberLiteral), Kind(StringLiteral), Kind(Super)}

  lemma ClassMentionsReferenced(p: Name, n: TypeName<Name>)
    requires p in ClassPart.nodes && Mentions(ClassPart.nodes[p], n)
    ensures n in ClassReferenced
  {
    ClassMentions(p, n);
  }

  /** Every name that some field contributed by the DestructuringAssignment layer refers to. */
  const DestructuringAssignmentReferenced: set<TypeName<Name>> :=
    {AnyExpression, Kind(AssignmentArrayPattern), Kind(AssignmentAssignmentPattern),
     Kind(AssignmentComputedProperty), Kind(AssignmentObjectPattern),
     Kind(AssignmentProperty), Kind(AssignmentRestElement),
     Kind(AssignmentShorthandProperty), Kind(BasicMemberExpression),
     Kind(ComputedMemberExpression), Kind(Identifier), Kind(NumberLiteral),
     Kind(StringLiteral)}

  lemma DestructuringAssignmentMentionsReferenced(p: Name, n: TypeName<Name>)
    requires p in DestructuringAssignmentPart.nodes && Mentions(DestructuringAssignmentPart.nodes[p], n)
    ensures n in DestructuringAssignmentReferenced
  {
    DestructuringAssignmentMentions(p, n);
  }

  /** Every name that some field contributed by the DestructuringBinding layer refers to. */
  const DestructuringBindingReferenced: set<TypeName<Name>> :=
    {AnyExpression, Kind(BindingArrayPattern), Kind(BindingAssignmentPattern),
     Kind(BindingComputedProperty), Kind(BindingObjectPattern), Kind(BindingProperty),
     Kind(BindingRestElement), Kind(BindingShorthandProperty), Kind(Identifier),
     Kind(NumberLiteral), Kind(StringLiteral)}

  lemma DestructuringBindingMentionsReferenced(p: Name, n: TypeName<Name>)
    requires p in DestructuringBindingPart.nodes && Mentions(DestructuringBindingPart.nodes[p], n)
    ensures n in DestructuringBindingReferenced
  {
    DestructuringBindingMentions(p, n);
  }

  /** Every name that some field contributed by the Iteration layer refers to. */
  const IterationReferenced: set<TypeName<Name>> :=
    {AnyExpression, AnyStatement, Kind(AssignmentArrayPattern),
     Kind(AssignmentObjectPattern), Kind(BasicMemberExpression),
     Kind(ComputedMemberExpression), Kind(Identifier), Kind(VariableDeclaration)}

  lemma IterationMentionsReferenced(p: Name, n: TypeName<Name>)
    requires p in IterationPart.nodes && Mentions(IterationPart.nodes[p], n)
    ensures n in IterationReferenced
  {
    IterationMentions(p, n);
  }

  /** Every name that some field contributed by the LexicalBinding layer refers to. */
  const LexicalBindingReferenced: set<TypeName<Name>> :=
    {}

  /** Every name that some field contributed by the Module layer refers to. */
  const ModuleReferenced: set<TypeName<Name>> :=
    {AnyExpression, AnyStatement, Kind(AnonymousDefaultExportedClassDeclaration),
     Kind(AnonymousDefaultExportedFunctionDeclaration), Kind(BindingArrayPattern),
     Kind(BindingAssignmentPattern), Kind(BindingObjectPattern), Kind(BindingRestElement),
     Kind(BlockStatement), Kind(ClassBody), Kind(ClassDeclaration),
     Kind(ExportAllDeclaration), Kind(ExportDefaultDeclaration),
     Kind(ExportNamedDeclaration), Kind(ExportNamedFromDeclaration),
     Kind(ExportSpecifier), Kind(FunctionDeclaration), Kind(Identifier),
     Kind(ImportDeclaration), Kind(ImportDefaultSpecifier),
     Kind(ImportNamespaceSpecifier), Kind(ImportSpecifier), Kind(StringLiteral),
     Kind(VariableDeclaration)}

  lemma ModuleMentionsReferenced(p: Name, n: TypeName<Name>)
    requires p in ModulePart.nodes && Mentions(ModulePart.nodes[p], n)
    ensures n in ModuleReferenced
  {
    ModuleMentions(p, n);
  }

  /** Every name that some field contributed by the ObjectLiteralEnhancement layer refers to. */
  const ObjectLiteralReferenced: set<TypeName<Name>> :=
    {AnyExpression, Kind(ComputedAccessorProperty), Kind(ComputedMethodProperty),
     Kind(ComputedProperty), Kind(FunctionExpression), Kind(Identifier),
     Kind(MethodProperty), Kind(NumberLiteral), Kind(ShorthandProperty),
     Kind(StringLiteral)}

  lemma ObjectLiteralMentionsReferenced(p: Name, n: TypeName<Name>)
    requires p in ObjectLiteralPart.nodes && Mentions(ObjectLiteralPart.nodes[p], n)
    ensures n in ObjectLiteralReferenced
  {
    ObjectLiteralMentions(p, n);
  }

  /** Every name that some field contributed by the RegExpEnhancement layer refers to. */
  const RegExpReferenced: set<TypeName<Name>> :=
    {}

  /** Every name that some field contributed by the Spread layer refers to. */
  const SpreadReferenced: set<TypeName<Name>> :=
    {AnyExpression, Kind(SpreadElement)}

  lemma SpreadMentionsReferenced(p: Name, n: TypeName<Name>)
    requires p in SpreadPart.nodes && Mentions(SpreadPart.nodes[p], n)
    ensures n in SpreadReferenced
  {
    SpreadMentions(p, n);
  }

  /** Every name that some field contributed by the TemplateLiteral layer refers to. */
  const TemplateLiteralReferenced: set<TypeName<Name>> :=
    {AnyExpression, Kind(TemplateElement), Kind(TemplateLiteral)}

  lemma TemplateLiteralMentionsReferenced(p: Name, n: TypeName<Name>)
    requires p in TemplateLiteralPart.nodes && Mentions(TemplateLiteralPart.nodes[p], n)
    ensures n in TemplateLiteralReferenced
  {
    TemplateLiteralMentions(p, n);
  }

  //----------------------------------------------------------------------------
  // All layers
  //----------------------------------------------------------------------------

  /** The names referred to by layer `i`, counted as in `LayerPart`. */
  function LayerReferenced(i: int): set<TypeName<Name>>
    requires 0 <= i < 11
  {
    if i == 0 then ArrowFunctionReferenced
    else if i == 1 then ClassReferenced
    else if i == 2 then DestructuringAssignmentReferenced
    else if i == 3 then DestructuringBindingReferenced
    else if i == 4 then IterationReferenced
    else if i == 5 then LexicalBindingReferenced
    else if i == 6 then ModuleReferenced
    else if i == 7 then ObjectLiteralReferenced
    else if i == 8 then RegExpReferenced
    else if i == 9 then SpreadReferenced
    else TemplateLiteralReferenced
  }

  /** The names referred to by each layer, in order. */
  function ReferencedByLayers(): seq<set<TypeName<Name>>>
  {
    seq(11, LayerReferenced)
  }

  /** Every name that a field contributed by layer `i` refers to is listed in `LayerReferenced(i)`. */
  lemma LayerMentions(i: int, p: Name, n: TypeName<Name>)
    requires 0 <= i < 11 && p in LayerPart(i).nodes && Mentions(LayerPart(i).nodes[p], n)
    ensures n in LayerReferenced(i)
  {
    if i == 0 {
      ArrowFunctionMentionsReferenced(p, n);
    } else if i == 1 {
      ClassMentionsReferenced(p, n);
    } else if i == 2 {
      DestructuringAssignmentMentionsReferenced(p, n);
    } else if i == 3 {
      DestructuringBindingMentionsReferenced(p, n);
    } else if i == 4 {
      IterationMentionsReferenced(p, n);
    } else if i == 5 {
      LexicalBindingMentionsNothing(p, n);
      assert false;
    } else if i == 6 {
      ModuleMentionsReferenced(p, n);
    } else if i == 7 {
      ObjectLiteralMentionsReferenced(p, n);
    } else if i == 8 {
      RegExpMentionsNothing(p, n);
      assert false;
    } else if i == 9 {
      SpreadMentionsReferenced(p, n);
    } else if i == 10 {
      TemplateLiteralMentionsReferenced(p, n);
    }
  }

  /** The body that layer `i` contributes to kind `k`, if any. */
  function LayerNodes(i: int, k: Name): Option<Body<Name>>
    requires 0 <= i < 11
  {
    if i == 0 then ArrowFunctionNodes(k)
    else if i == 1 then ClassNodes(k)
    else if i == 2 then DestructuringAssignmentNodes(k)
    else if i == 3 then DestructuringBindingNodes(k)
    else if i == 4 then IterationNodes(k)
    else if i == 5 then LexicalBindingNodes(k)
    else if i == 6 then ModuleNodes(k)
    else if i == 7 then ObjectLiteralNodes(k)
    else if i == 8 then RegExpNodes(k)
    else if i == 9 then SpreadNodes(k)
    else TemplateLiteralNodes(k)
  }

  /** Layer `i` contributes to kind `p` exactly when `LayerNodes(i, p)` has a body. */
  lemma LayerNodesAre(i: int, p: Name)
    requires 0 <= i < 11
    ensures p in LayerPart(i).nodes <==> LayerNodes(i, p).Some?
  {
    if i == 0 {
      ArrowFunctionPartNodes(p);
    } else if i == 1 {
      ClassPartNodes(p);
    } else if i == 2 {
      DestructuringAssignmentPartNodes(p);
    } else if i == 3 {
      DestructuringBindingPartNodes(p);
    } else if i == 4 {
      IterationPartNodes(p);
    } else if i == 5 {
      LexicalBindingPartNodes(p);
    } else if i == 6 {
      ModulePartNodes(p);
    } else if i == 7 {
      ObjectLiteralPartNodes(p);
    } else if i == 8 {
      RegExpPartNodes(p);
    } else if i == 9 {
      SpreadPartNodes(p);
    } else if i == 10 {
      TemplateLiteralPartNodes(p);
    }
  }

  /** The body that layer `i` contributes to kind `p` is `LayerNodes(i, p)`. */
  lemma LayerBodiesAre(i: int, p: Name)
    requires 0 <= i < 11 && p in LayerPart(i).nodes
    ensures LayerNodes(i, p).Some? && LayerPart(i).nodes[p] == LayerNodes(i, p).value
  {
    if i == 0 {
      ArrowFunctionPartNodes(p);
    } else if i == 1 {
      ClassPartNodes(p);
    } else if i == 2 {
      DestructuringAssignmentPartNodes(p);
    } else if i == 3 {
      DestructuringBindingPartNodes(p);
    } else if i == 4 {
      IterationPartNodes(p);
    } else if i == 5 {
      LexicalBindingPartNodes(p);
    } else if i == 6 {
      ModulePartNodes(p);
    } else if i == 7 {
      ObjectLiteralPartNodes(p);
    } else if i == 8 {
      RegExpPartNodes(p);
    } else if i == 9 {
      SpreadPartNodes(p);
    } else if i == 10 {
      TemplateLiteralPartNodes(p);
    }
  }

  lemma ArrowFunctionPartAt()
    ensures LayerParts()[0] == ArrowFunctionPart
  {
  }

  lemma ClassPartAt()
    ensures LayerParts()[1] == ClassPart
  {
  }

  lemma DestructuringAssignmentPartAt()
    ensures LayerParts()[2] == DestructuringAssignmentPart
  {
  }

  lemma DestructuringBindingPartAt()
    ensures LayerParts()[3] == DestructuringBindingPart
  {
  }

  lemma IterationPartAt()
    ensures LayerParts()[4] == IterationPart
  {
  }

  lemma LexicalBindingPartAt()
    ensures LayerParts()[5] == LexicalBindingPart
  {
  }

  lemma ModulePartAt()
    ensures LayerParts()[6] == ModulePart
  {
  }

  lemma ObjectLiteralPartAt()
    ensures LayerParts()[7] == ObjectLiteralPart
  {
  }

  lemma RegExpPartAt()
    ensures LayerParts()[8] == RegExpPart
  {
  }

  lemma SpreadPartAt()
    ensures LayerParts()[9] == SpreadPart
  {
  }

  lemma TemplateLiteralPartAt()
    ensures LayerParts()[10] == TemplateLiteralPart
  {
  }
}
