/**
 * Facts that lib/types/ast-es2015.d.ts encodes, proved about the constant
 * `Es2015.ES2015`: the eleven layers folded onto the ES5 definition.
 */
module Es2015Facts {
  import opened Definer
  import opened Grammar
  import opened Relations
  import opened MergeLaws
  import opened FlatMerge
  import opened Es5
  import opened Es5Facts
  import opened Es5Counts
  import opened Es2015
  import opened Es2015Refs
  import opened Es2015Fold

  //----------------------------------------------------------------------------
  // Statement and expression kinds
  //----------------------------------------------------------------------------

  lemma NewStatementsApart()
    ensures ES5.statementType !! NewStatements && |NewStatements| == 2
  {
  }

  lemma NewExpressionsApart()
    ensures ES5.expressionType !! NewExpressions && |NewExpressions| == 6
  {
  }

  /** The statements are the nineteen ES5 statements plus `ClassDeclaration` and `ForOfStatement`: twenty-one. */
  lemma Es2015Statements()
    ensures ES2015.statementType == ES5.statementType + {ClassDeclaration, ForOfStatement}
    ensures |ES2015.statementType| == 21
  {
    FoldKindSets(ES5);
    StatementCount();
    NewStatementsApart();
    DisjointUnion(ES5.statementType, NewStatements);
  }

  /**
   * The expressions are the twenty-one ES5 expressions plus the arrow
   * function, class, meta property, yield, tagged template and template
   * literal expressions: twenty-seven.
   */
  lemma Es2015Expressions()
    ensures ES2015.expressionType == ES5.expressionType + {
      ArrowFunctionExpression, ClassExpression, MetaProperty, YieldExpression,
      TaggedTemplateExpression, TemplateLiteral}
    ensures |ES2015.expressionType| == 27
  {
    FoldKindSets(ES5);
    ExpressionCount();
    NewExpressionsApart();
    DisjointUnion(ES5.expressionType, NewExpressions);
  }

  //----------------------------------------------------------------------------
  // Kinds and parents after the fold
  //----------------------------------------------------------------------------

  /** The ES5 definition's kinds and kind sets. */
  lemma Es5Shape()
    ensures ES5.nodes.Keys == Kinds && ES5.statementType == Statements && ES5.expressionType == Expressions
  {
  }

  /** An ES5 kind is an ES2015 kind. */
  lemma Es5KindKept(k: Name)
    requires k in Kinds
    ensures k in ES2015.nodes
  {
    Es5Shape();
    FoldKinds(ES5, k);
  }

  /** A kind that layer `j` contributes to is an ES2015 kind. */
  lemma LayerKindKept(j: int, k: Name)
    requires 0 <= j < 11 && k in LayerParts()[j].nodes
    ensures k in ES2015.nodes
  {
    FoldKinds(ES5, k);
  }

  /** A kind that is neither an ES5 statement or expression nor a new one is neither after the fold. */
  lemma NeitherAfterFold(k: Name)
    requires k !in Statements + NewStatements && k !in Expressions + NewExpressions
    ensures k !in ES2015.statementType && k !in ES2015.expressionType
  {
    Es5Shape();
    FoldKindSets(ES5);
  }

  /** A kind that the ES5 table never names is named by no ES5 field, and no ES5 field names `Node`. */
  lemma Es5NeverNames(k: Name)
    requires forall p :: Kind(k) !in Es5References(p)
    ensures forall p :: p in ES5.nodes ==> !Mentions(ES5.nodes[p], AnyNode) && !Mentions(ES5.nodes[p], Kind(k))
  {
    NoNodeReferences();
    forall p | p in ES5.nodes ensures !Mentions(ES5.nodes[p], Kind(k)) {
      if Mentions(ES5.nodes[p], Kind(k)) {
        References(p, Kind(k));
      }
    }
  }

  /**
   * The parents in ES2015 of a kind that is neither a statement nor an
   * expression, that no ES5 field names and that, of all layers, only layer
   * `j` names, at the kinds `qs`: exactly `qs`.
   */
  lemma ParentsFromLayer(k: Name, j: int, qs: set<Name>)
    requires 0 <= j < 11 && k in ES2015.nodes
    requires k !in Statements + NewStatements && k !in Expressions + NewExpressions
    requires forall p :: Kind(k) !in Es5References(p)
    requires forall i :: 0 <= i < 11 && i != j ==> Kind(k) !in ReferencedByLayers()[i]
    requires forall p :: p in LayerParts()[j].nodes && Mentions(LayerParts()[j].nodes[p], Kind(k)) ==> p in qs
    requires forall q :: q in qs ==> q in LayerParts()[j].nodes && Mentions(LayerParts()[j].nodes[q], Kind(k))
    ensures ParentType(ES2015, k) == qs
    ensures qs != {} ==> ParentProperty(ES2015, k) == Some(qs)
  {
    NeitherAfterFold(k);
    Es5NeverNames(k);
    FoldParents(ES5, k, j, qs);
  }

  /**
   * A kind of ES2015 that is neither a statement nor an expression, and that
   * neither ES5 nor any layer names, is a root: its `parent` is `null`.
   */
  lemma RootAfterFold(k: Name)
    requires k in ES2015.nodes
    requires k !in Statements + NewStatements && k !in Expressions + NewExpressions
    requires forall p :: Kind(k) !in Es5References(p)
    requires forall i :: 0 <= i < 11 ==> Kind(k) !in ReferencedByLayers()[i]
    ensures ParentProperty(ES2015, k) == None
  {
    NeitherAfterFold(k);
    Es5NeverNames(k);
    FoldRoot(ES5, k);
  }

  //----------------------------------------------------------------------------
  // Fields after the fold
  //----------------------------------------------------------------------------

  /** The body of an ES5 kind. */
  lemma Es5BodyAt(k: Name)
    requires k in Kinds
    ensures k in ES5.nodes && ES5.nodes[k] == Es5Body(k)
  {
  }

  /** Layer `j` gives field `f` to kind `k`, as `LayerNodes` says. */
  lemma LayerField(j: int, k: Name, f: string)
    requires 0 <= j < 11 && LayerNodes(j, k).Some? && f in LayerNodes(j, k).value
    ensures Gives(LayerParts(), j, k, f) && LayerParts()[j].nodes[k][f] == LayerNodes(j, k).value[f]
  {
    LayerNodesAre(j, k);
    LayerBodiesAre(j, k);
  }

  /** No layer but `j` gives field `f` to kind `k`. */
  lemma OnlyLayerGives(j: int, k: Name, f: string)
    requires forall i :: 0 <= i < 11 && i != j ==> LayerNodes(i, k).None? || f !in LayerNodes(i, k).value
    ensures forall i :: 0 <= i < 11 && i != j ==> !Gives(LayerParts(), i, k, f)
  {
    forall i | 0 <= i < 11 && i != j ensures !Gives(LayerParts(), i, k, f) {
      LayerNodesAre(i, k);
      if k in LayerPart(i).nodes {
        LayerBodiesAre(i, k);
      }
    }
  }

  /** Of all layers, only layer `j` contributes field `f` to kind `k`, and it contributes `t`. */
  predicate OnlyLayerField(j: int, k: Name, f: string, t: FieldType<Name>)
  {
    && 0 <= j < 11 && LayerNodes(j, k).Some? && f in LayerNodes(j, k).value && LayerNodes(j, k).value[f] == t
    && forall i :: 0 <= i < 11 && i != j ==> LayerNodes(i, k).None? || f !in LayerNodes(i, k).value
  }

  /** ES5 gives field `f` to kind `k` as `t`, or does not give it and `t` is empty. */
  predicate Es5FieldIs(k: Name, f: string, t: FieldType<Name>)
  {
    if k in Kinds && f in Es5Body(k) then Es5Body(k)[f] == t else t == {}
  }

  /** What ES5 gives to field `f` of kind `k`, as the fold sees it. */
  lemma Es5FieldAsBase(k: Name, f: string, base: FieldType<Name>)
    requires Es5FieldIs(k, f, base)
    ensures BaseField(ES5, k, f) == base
    ensures (k in ES5.nodes && f in ES5.nodes[k]) <==> (k in Kinds && f in Es5Body(k))
  {
    Es5Shape();
    if k in Kinds {
      Es5BodyAt(k);
    }
  }

  /**
   * A field that, of all layers, only layer `j` gives, as a non-empty union
   * `t` without arrays, and that ES5 gives likewise as `base`, or not at all:
   * in ES2015 it is the union of the two.
   */
  lemma WidenedByLayer(j: int, k: Name, f: string, base: FieldType<Name>, t: FieldType<Name>)
    requires OnlyLayerField(j, k, f, t) && t != {} && NoArrays(t)
    requires Es5FieldIs(k, f, base) && NoArrays(base)
    requires base == {} ==> !(k in Kinds && f in Es5Body(k))
    ensures k in ES2015.nodes && f in ES2015.nodes[k]
    ensures ES2015.nodes[k][f] == base + t
  {
    LayerField(j, k, f);
    OnlyLayerGives(j, k, f);
    Es5FieldAsBase(k, f, base);
    FoldPlainFromLayer(ES5, j, k, f);
  }

  /**
   * A field that, of all layers, only layer `j` gives, as arrays only, and
   * that ES5 gives as arrays only or not at all: in ES2015 it is one array of
   * the elements of both.
   */
  lemma ListWidenedByLayer(j: int, k: Name, f: string, base: FieldType<Name>, t: FieldType<Name>)
    requires OnlyLayerField(j, k, f, t) && AllArrays(t)
    requires Es5FieldIs(k, f, base) && AllArrays(base)
    ensures k in ES2015.nodes && f in ES2015.nodes[k]
    ensures ES2015.nodes[k][f] == {ArrayOf(ArrayElements(base) + ArrayElements(t))}
  {
    LayerField(j, k, f);
    OnlyLayerGives(j, k, f);
    Es5FieldAsBase(k, f, base);
    FoldListFromLayer(ES5, j, k, f);
  }

  /** The elements of a single array type; the empty union has none. */
  lemma ElementsOfOneArray(es: set<Scalar<Name>>)
    ensures ArrayElements({ArrayOf(es)}) == es
    ensures ArrayElements<Name>({}) == {}
  {
    forall s | s in es ensures s in ArrayElements({ArrayOf(es)}) {
      assert ArrayOf(es) in {ArrayOf(es)};
    }
  }

  /**
   * A kind new in layer `j` whose `type` that layer alone declares as the
   * tag literal `t` carries the tag `t` in ES2015.
   */
  lemma TagFromLayer(j: int, k: Name, t: Name)
    requires OnlyLayerField(j, k, "type", TypeTag(t)) && k !in Kinds
    ensures k in ES2015.nodes && Tag(k, ES2015.nodes[k]) == {t} && StringTags(ES2015.nodes[k]) == {}
  {
    WidenedByLayer(j, k, "type", {}, TypeTag(t));
    DeclaredTag(k, ES2015.nodes[k], t);
  }

  /** A kind that neither ES5 nor any layer gives a `type` carries its own name as its tag in ES2015. */
  lemma UntypedKind(k: Name)
    requires k in ES2015.nodes && k !in Kinds
    requires forall i :: 0 <= i < 11 ==> LayerNodes(i, k).None? || "type" !in LayerNodes(i, k).value
    ensures Tag(k, ES2015.nodes[k]) == {k} && StringTags(ES2015.nodes[k]) == {}
  {
    Es5Shape();
    OnlyLayerGives(-1, k, "type");
    FoldFieldAbsent(ES5, k, "type");
  }

  //----------------------------------------------------------------------------
  // Super
  //----------------------------------------------------------------------------

  /** A field `f` of body `b` that holds member `m`, which names kind `k`, makes `b` name `k`. */
  lemma NamedBy(b: Body<Name>, f: string, m: Member<Name>, k: Name)
    requires f in b && m in b[f] && MemberMentions(m, Kind(k))
    ensures Mentions(b, Kind(k))
  {
  }

  /** `Super` is not an ES5 kind. */
  lemma SuperNotEs5()
    ensures Super !in ES5.nodes
  {
    Es5Shape();
  }

  lemma SuperInClassLayer()
    ensures Super in LayerParts()[1].nodes
  {
    ClassPartAt();
    ClassPartNodes(Super);
  }

  /** The Class layer defines `Super`. */
  lemma SuperFromClasses()
    ensures Super in ES2015.nodes
  {
    SuperInClassLayer();
    LayerKindKept(1, Super);
  }

  lemma SuperNeither()
    ensures Super !in Statements + NewStatements && Super !in Expressions + NewExpressions
  {
  }

  lemma SuperNotInEs5Table()
    ensures forall p :: Kind(Super) !in Es5References(p)
  {
  }

  lemma SuperOnlyInClassLayer()
    ensures forall i :: 0 <= i < 11 && i != 1 ==> Kind(Super) !in ReferencedByLayers()[i]
  {
  }

  lemma SuperClassReferrers()
    ensures forall p :: Kind(Super) in ClassReferences(p) ==> p in {CallExpression, BasicMemberExpression, ComputedMemberExpression}
  {
  }

  lemma SuperReferrersInClassLayer()
    ensures forall p :: p in ClassPart.nodes && Mentions(ClassPart.nodes[p], Kind(Super)) ==>
      p in {CallExpression, BasicMemberExpression, ComputedMemberExpression}
  {
    forall p | p in ClassPart.nodes && Mentions(ClassPart.nodes[p], Kind(Super))
      ensures p in {CallExpression, BasicMemberExpression, ComputedMemberExpression}
    {
      ClassMentions(p, Kind(Super));
      SuperClassReferrers();
    }
  }

  lemma SuperCallee()
    ensures CallExpression in ClassPart.nodes && Mentions(ClassPart.nodes[CallExpression], Kind(Super))
  {
    ClassPartNodes(CallExpression);
    NamedBy(ClassPart.nodes[CallExpression], "callee", NodeRef(Super), Super);
  }

  lemma SuperObject()
    ensures BasicMemberExpression in ClassPart.nodes && Mentions(ClassPart.nodes[BasicMemberExpression], Kind(Super))
    ensures ComputedMemberExpression in ClassPart.nodes && Mentions(ClassPart.nodes[ComputedMemberExpression], Kind(Super))
  {
    ClassPartNodes(BasicMemberExpression);
    NamedBy(ClassPart.nodes[BasicMemberExpression], "object", NodeRef(Super), Super);
    ClassPartNodes(ComputedMemberExpression);
    NamedBy(ClassPart.nodes[ComputedMemberExpression], "object", NodeRef(Super), Super);
  }

  /**
   * The parents of `Super` are exactly `CallExpression` (as callee) and the
   * two member expressions (as object).
   */
  lemma SuperParents()
    ensures ParentType(ES2015, Super) == {CallExpression, BasicMemberExpression, ComputedMemberExpression}
    ensures ParentProperty(ES2015, Super) == Some({CallExpression, BasicMemberExpression, ComputedMemberExpression})
  {
    SuperFromClasses();
    SuperNeither();
    SuperNotInEs5Table();
    SuperOnlyInClassLayer();
    ClassPartAt();
    SuperReferrersInClassLayer();
    SuperCallee();
    SuperObject();
    ParentsFromLayer(Super, 1, {CallExpression, BasicMemberExpression, ComputedMemberExpression});
  }

  //----------------------------------------------------------------------------
  // Widened fields
  //----------------------------------------------------------------------------

  lemma AssignmentLeftParts()
    ensures OnlyLayerField(2, AssignmentExpression, "left", {NodeRef(AssignmentArrayPattern), NodeRef(AssignmentObjectPattern)})
    ensures Es5FieldIs(AssignmentExpression, "left", SimpleTarget)
  {
  }

  /** `AssignmentExpression.left` gains the assignment array and object patterns. */
  lemma AssignmentLeftWidened()
    ensures AssignmentExpression in ES2015.nodes && "left" in ES2015.nodes[AssignmentExpression]
    ensures ES2015.nodes[AssignmentExpression]["left"] ==
      SimpleTarget + {NodeRef(AssignmentArrayPattern), NodeRef(AssignmentObjectPattern)}
  {
    AssignmentLeftParts();
    WidenedByLayer(2, AssignmentExpression, "left", SimpleTarget,
      {NodeRef(AssignmentArrayPattern), NodeRef(AssignmentObjectPattern)});
  }

  /** The three method definition kinds, as elements of an array. */
  const MethodElements: set<Scalar<Name>> :=
    {Elem(ComputedMethodDefinition), Elem(ConstructorDefinition), Elem(MethodDefinition)}

  lemma ClassBodyParts()
    ensures OnlyLayerField(1, ClassBody, "body", {ArrayOf(MethodElements)})
    ensures Es5FieldIs(ClassBody, "body", {})
  {
  }

  /** `ClassBody.body` is one array of the three method definition kinds. */
  lemma ClassBodyHoldsMethods()
    ensures ClassBody in ES2015.nodes && "body" in ES2015.nodes[ClassBody]
    ensures ES2015.nodes[ClassBody]["body"] == {ArrayOf(MethodElements)}
  {
    ClassBodyParts();
    ElementsOfOneArray(MethodElements);
    ListWidenedByLayer(1, ClassBody, "body", {}, {ArrayOf(MethodElements)});
    assert ArrayElements<Name>({}) + ArrayElements({ArrayOf(MethodElements)}) == MethodElements;
  }

  lemma MethodDefinitionParts()
    ensures MethodDefinition !in Kinds && OnlyLayerField(1, MethodDefinition, "kind", {Lit("method"), Lit("get"), Lit("set")})
    ensures forall i :: 0 <= i < 11 ==> LayerNodes(i, MethodDefinition).None? || "type" !in LayerNodes(i, MethodDefinition).value
  {
  }

  lemma ConstructorDefinitionTyped()
    ensures ConstructorDefinition !in Kinds && OnlyLayerField(1, ConstructorDefinition, "type", TypeTag(MethodDefinition))
  {
  }

  lemma ComputedMethodDefinitionTyped()
    ensures ComputedMethodDefinition !in Kinds && OnlyLayerField(1, ComputedMethodDefinition, "type", TypeTag(MethodDefinition))
  {
  }

  /** The three method definition kinds share the tag `MethodDefinition`. */
  lemma MethodDefinitionTags()
    ensures MethodDefinition in ES2015.nodes && Tag(MethodDefinition, ES2015.nodes[MethodDefinition]) == {MethodDefinition}
    ensures ConstructorDefinition in ES2015.nodes && Tag(ConstructorDefinition, ES2015.nodes[ConstructorDefinition]) == {MethodDefinition}
    ensures ComputedMethodDefinition in ES2015.nodes && Tag(ComputedMethodDefinition, ES2015.nodes[ComputedMethodDefinition]) == {MethodDefinition}
  {
    MethodDefinitionParts();
    ConstructorDefinitionTyped();
    ComputedMethodDefinitionTyped();
    LayerField(1, MethodDefinition, "kind");
    LayerKindKept(1, MethodDefinition);
    UntypedKind(MethodDefinition);
    TagFromLayer(1, ConstructorDefinition, MethodDefinition);
    TagFromLayer(1, ComputedMethodDefinition, MethodDefinition);
  }

  //----------------------------------------------------------------------------
  // Fields widened or added by a single layer
  //----------------------------------------------------------------------------

  lemma ForInLeftWidenedParts()
    ensures OnlyLayerField(2, ForInStatement, "left", {NodeRef(AssignmentArrayPattern), NodeRef(AssignmentObjectPattern)})
    ensures Es5FieldIs(ForInStatement, "left", SimpleTarget + {NodeRef(VariableDeclaration)})
  {
  }

  /** `ForInStatement.left` gains the assignment array and object patterns. */
  lemma ForInLeftWidened()
    ensures ForInStatement in ES2015.nodes && "left" in ES2015.nodes[ForInStatement]
    ensures ES2015.nodes[ForInStatement]["left"] == SimpleTarget + {NodeRef(VariableDeclaration)} + {NodeRef(AssignmentArrayPattern), NodeRef(AssignmentObjectPattern)}
  {
    ForInLeftWidenedParts();
    WidenedByLayer(2, ForInStatement, "left", SimpleTarget + {NodeRef(VariableDeclaration)}, {NodeRef(AssignmentArrayPattern), NodeRef(AssignmentObjectPattern)});
  }

  lemma CatchParamWidenedParts()
    ensures OnlyLayerField(3, CatchClause, "param", {NodeRef(BindingArrayPattern), NodeRef(BindingObjectPattern)})
    ensures Es5FieldIs(CatchClause, "param", {NodeRef(Identifier)})
  {
  }

  /** `CatchClause.param` gains the binding array and object patterns. */
  lemma CatchParamWidened()
    ensures CatchClause in ES2015.nodes && "param" in ES2015.nodes[CatchClause]
    ensures ES2015.nodes[CatchClause]["param"] == {NodeRef(Identifier)} + {NodeRef(BindingArrayPattern), NodeRef(BindingObjectPattern)}
  {
    CatchParamWidenedParts();
    WidenedByLayer(3, CatchClause, "param", {NodeRef(Identifier)}, {NodeRef(BindingArrayPattern), NodeRef(BindingObjectPattern)});
  }

  lemma DeclaratorIdWidenedParts()
    ensures OnlyLayerField(3, VariableDeclarator, "id", {NodeRef(BindingArrayPattern), NodeRef(BindingObjectPattern)})
    ensures Es5FieldIs(VariableDeclarator, "id", {NodeRef(Identifier)})
  {
  }

  /** `VariableDeclarator.id` gains the binding array and object patterns. */
  lemma DeclaratorIdWidened()
    ensures VariableDeclarator in ES2015.nodes && "id" in ES2015.nodes[VariableDeclarator]
    ensures ES2015.nodes[VariableDeclarator]["id"] == {NodeRef(Identifier)} + {NodeRef(BindingArrayPattern), NodeRef(BindingObjectPattern)}
  {
    DeclaratorIdWidenedParts();
    WidenedByLayer(3, VariableDeclarator, "id", {NodeRef(Identifier)}, {NodeRef(BindingArrayPattern), NodeRef(BindingObjectPattern)});
  }

  lemma DeclarationGeneratorAddedParts()
    ensures OnlyLayerField(4, FunctionDeclaration, "generator", Prim("boolean"))
    ensures Es5FieldIs(FunctionDeclaration, "generator", {})
  {
  }

  /** `FunctionDeclaration` gains a boolean `generator`. */
  lemma DeclarationGeneratorAdded()
    ensures FunctionDeclaration in ES2015.nodes && "generator" in ES2015.nodes[FunctionDeclaration]
    ensures ES2015.nodes[FunctionDeclaration]["generator"] == Prim("boolean")
  {
    DeclarationGeneratorAddedParts();
    WidenedByLayer(4, FunctionDeclaration, "generator", {}, Prim("boolean"));
  }

  lemma ExpressionGeneratorAddedParts()
    ensures OnlyLayerField(4, FunctionExpression, "generator", Prim("boolean"))
    ensures Es5FieldIs(FunctionExpression, "generator", {})
  {
  }

  /** `FunctionExpression` gains a boolean `generator`. */
  lemma ExpressionGeneratorAdded()
    ensures FunctionExpression in ES2015.nodes && "generator" in ES2015.nodes[FunctionExpression]
    ensures ES2015.nodes[FunctionExpression]["generator"] == Prim("boolean")
  {
    ExpressionGeneratorAddedParts();
    WidenedByLayer(4, FunctionExpression, "generator", {}, Prim("boolean"));
  }

  lemma DeclarationKindAddedParts()
    ensures OnlyLayerField(5, VariableDeclaration, "kind", {Lit("var"), Lit("let"), Lit("const")})
    ensures Es5FieldIs(VariableDeclaration, "kind", {})
  {
  }

  /** `VariableDeclaration` gains `kind`, one of `"var"`, `"let"` and `"const"`. */
  lemma DeclarationKindAdded()
    ensures VariableDeclaration in ES2015.nodes && "kind" in ES2015.nodes[VariableDeclaration]
    ensures ES2015.nodes[VariableDeclaration]["kind"] == {Lit("var"), Lit("let"), Lit("const")}
  {
    DeclarationKindAddedParts();
    WidenedByLayer(5, VariableDeclaration, "kind", {}, {Lit("var"), Lit("let"), Lit("const")});
  }

  lemma RegExpValueWidenedParts()
    ensures OnlyLayerField(8, RegExpLiteral, "value", {NullMember})
    ensures Es5FieldIs(RegExpLiteral, "value", Prim("RegExp"))
  {
  }

  /** `RegExpLiteral.value` becomes `RegExp | null`. */
  lemma RegExpValueWidened()
    ensures RegExpLiteral in ES2015.nodes && "value" in ES2015.nodes[RegExpLiteral]
    ensures ES2015.nodes[RegExpLiteral]["value"] == Prim("RegExp") + {NullMember}
  {
    RegExpValueWidenedParts();
    WidenedByLayer(8, RegExpLiteral, "value", Prim("RegExp"), {NullMember});
  }

  lemma ProgramSourceTypeParts()
    ensures OnlyLayerField(6, Program, "sourceType", {Lit("script")})
    ensures Es5FieldIs(Program, "sourceType", {})
  {
  }

  /** `Program.sourceType` is `"script"`. */
  lemma ProgramSourceType()
    ensures Program in ES2015.nodes && "sourceType" in ES2015.nodes[Program]
    ensures ES2015.nodes[Program]["sourceType"] == {Lit("script")}
  {
    ProgramSourceTypeParts();
    WidenedByLayer(6, Program, "sourceType", {}, {Lit("script")});
  }

  lemma ModuleProgramSourceTypeParts()
    ensures OnlyLayerField(6, ModuleProgram, "sourceType", {Lit("module")})
    ensures Es5FieldIs(ModuleProgram, "sourceType", {})
  {
  }

  /** `ModuleProgram.sourceType` is `"module"`. */
  lemma ModuleProgramSourceType()
    ensures ModuleProgram in ES2015.nodes && "sourceType" in ES2015.nodes[ModuleProgram]
    ensures ES2015.nodes[ModuleProgram]["sourceType"] == {Lit("module")}
  {
    ModuleProgramSourceTypeParts();
    WidenedByLayer(6, ModuleProgram, "sourceType", {}, {Lit("module")});
  }

  lemma ConstructorKindParts()
    ensures OnlyLayerField(1, ConstructorDefinition, "kind", {Lit("constructor")})
    ensures Es5FieldIs(ConstructorDefinition, "kind", {})
  {
  }

  /** A `ConstructorDefinition` has kind `"constructor"`. */
  lemma ConstructorKind()
    ensures ConstructorDefinition in ES2015.nodes && "kind" in ES2015.nodes[ConstructorDefinition]
    ensures ES2015.nodes[ConstructorDefinition]["kind"] == {Lit("constructor")}
  {
    ConstructorKindParts();
    WidenedByLayer(1, ConstructorDefinition, "kind", {}, {Lit("constructor")});
  }

  lemma ConstructorNotStaticParts()
    ensures OnlyLayerField(1, ConstructorDefinition, "static", Flag(false))
    ensures Es5FieldIs(ConstructorDefinition, "static", {})
  {
  }

  /** A `ConstructorDefinition` is never static. */
  lemma ConstructorNotStatic()
    ensures ConstructorDefinition in ES2015.nodes && "static" in ES2015.nodes[ConstructorDefinition]
    ensures ES2015.nodes[ConstructorDefinition]["static"] == Flag(false)
  {
    ConstructorNotStaticParts();
    WidenedByLayer(1, ConstructorDefinition, "static", {}, Flag(false));
  }

  lemma ConstructorNotComputedParts()
    ensures OnlyLayerField(1, ConstructorDefinition, "computed", Flag(false))
    ensures Es5FieldIs(ConstructorDefinition, "computed", {})
  {
  }

  /** A `ConstructorDefinition` is never computed. */
  lemma ConstructorNotComputed()
    ensures ConstructorDefinition in ES2015.nodes && "computed" in ES2015.nodes[ConstructorDefinition]
    ensures ES2015.nodes[ConstructorDefinition]["computed"] == Flag(false)
  {
    ConstructorNotComputedParts();
    WidenedByLayer(1, ConstructorDefinition, "computed", {}, Flag(false));
  }

  lemma ConstructorKeyParts()
    ensures OnlyLayerField(1, ConstructorDefinition, "key", {NodeRef(Identifier), NodeRef(StringLiteral)})
    ensures Es5FieldIs(ConstructorDefinition, "key", {})
  {
  }

  /** The key of a `ConstructorDefinition` is an `Identifier` or a `StringLiteral`. */
  lemma ConstructorKey()
    ensures ConstructorDefinition in ES2015.nodes && "key" in ES2015.nodes[ConstructorDefinition]
    ensures ES2015.nodes[ConstructorDefinition]["key"] == {NodeRef(Identifier), NodeRef(StringLiteral)}
  {
    ConstructorKeyParts();
    WidenedByLayer(1, ConstructorDefinition, "key", {}, {NodeRef(Identifier), NodeRef(StringLiteral)});
  }

  /** The binding patterns that may stand as a parameter, as elements of an array. */
  const PatternElements: set<Scalar<Name>> :=
    {Elem(BindingArrayPattern), Elem(BindingAssignmentPattern), Elem(BindingObjectPattern), Elem(BindingRestElement)}

  /** The five property kinds of the ObjectLiteral layer, as elements of an array. */
  const NewPropertyElements: set<Scalar<Name>> :=
    {Elem(MethodProperty), Elem(ShorthandProperty), Elem(ComputedProperty),
     Elem(ComputedAccessorProperty), Elem(ComputedMethodProperty)}

  lemma ArrayElementsSpreadParts()
    ensures OnlyLayerField(9, ArrayExpression, "elements", {ArrayOf({Elem(SpreadElement)})})
    ensures Es5FieldIs(ArrayExpression, "elements", {ArrayOf({ExpressionElem, Null})})
  {
  }

  /** `ArrayExpression.elements` is one array that adds `SpreadElement`. */
  lemma ArrayElementsSpread()
    ensures ArrayExpression in ES2015.nodes && "elements" in ES2015.nodes[ArrayExpression]
    ensures ES2015.nodes[ArrayExpression]["elements"] == {ArrayOf({ExpressionElem, Null} + {Elem(SpreadElement)})}
  {
    ArrayElementsSpreadParts();
    ElementsOfOneArray({ExpressionElem, Null});
    ElementsOfOneArray({Elem(SpreadElement)});
    ListWidenedByLayer(9, ArrayExpression, "elements", {ArrayOf({ExpressionElem, Null})}, {ArrayOf({Elem(SpreadElement)})});
  }

  lemma CallArgumentsSpreadParts()
    ensures OnlyLayerField(9, CallExpression, "arguments", {ArrayOf({Elem(SpreadElement)})})
    ensures Es5FieldIs(CallExpression, "arguments", {ArrayOf({ExpressionElem})})
  {
  }

  /** `CallExpression.arguments` is one array that adds `SpreadElement`. */
  lemma CallArgumentsSpread()
    ensures CallExpression in ES2015.nodes && "arguments" in ES2015.nodes[CallExpression]
    ensures ES2015.nodes[CallExpression]["arguments"] == {ArrayOf({ExpressionElem} + {Elem(SpreadElement)})}
  {
    CallArgumentsSpreadParts();
    ElementsOfOneArray({ExpressionElem});
    ElementsOfOneArray({Elem(SpreadElement)});
    ListWidenedByLayer(9, CallExpression, "arguments", {ArrayOf({ExpressionElem})}, {ArrayOf({Elem(SpreadElement)})});
  }

  lemma NewArgumentsSpreadParts()
    ensures OnlyLayerField(9, NewExpression, "arguments", {ArrayOf({Elem(SpreadElement)})})
    ensures Es5FieldIs(NewExpression, "arguments", {ArrayOf({ExpressionElem})})
  {
  }

  /** `NewExpression.arguments` is one array that adds `SpreadElement`. */
  lemma NewArgumentsSpread()
    ensures NewExpression in ES2015.nodes && "arguments" in ES2015.nodes[NewExpression]
    ensures ES2015.nodes[NewExpression]["arguments"] == {ArrayOf({ExpressionElem} + {Elem(SpreadElement)})}
  {
    NewArgumentsSpreadParts();
    ElementsOfOneArray({ExpressionElem});
    ElementsOfOneArray({Elem(SpreadElement)});
    ListWidenedByLayer(9, NewExpression, "arguments", {ArrayOf({ExpressionElem})}, {ArrayOf({Elem(SpreadElement)})});
  }

  lemma DeclarationParamsWidenedParts()
    ensures OnlyLayerField(3, FunctionDeclaration, "params", {ArrayOf(PatternElements)})
    ensures Es5FieldIs(FunctionDeclaration, "params", {ArrayOf({Elem(Identifier)})})
  {
  }

  /** The `params` of a `FunctionDeclaration` are one array that adds the binding patterns. */
  lemma DeclarationParamsWidened()
    ensures FunctionDeclaration in ES2015.nodes && "params" in ES2015.nodes[FunctionDeclaration]
    ensures ES2015.nodes[FunctionDeclaration]["params"] == {ArrayOf({Elem(Identifier)} + PatternElements)}
  {
    DeclarationParamsWidenedParts();
    ElementsOfOneArray({Elem(Identifier)});
    ElementsOfOneArray(PatternElements);
    ListWidenedByLayer(3, FunctionDeclaration, "params", {ArrayOf({Elem(Identifier)})}, {ArrayOf(PatternElements)});
  }

  lemma ExpressionParamsWidenedParts()
    ensures OnlyLayerField(3, FunctionExpression, "params", {ArrayOf(PatternElements)})
    ensures Es5FieldIs(FunctionExpression, "params", {ArrayOf({Elem(Identifier)})})
  {
  }

  /** The `params` of a `FunctionExpression` are one array that adds the binding patterns. */
  lemma ExpressionParamsWidened()
    ensures FunctionExpression in ES2015.nodes && "params" in ES2015.nodes[FunctionExpression]
    ensures ES2015.nodes[FunctionExpression]["params"] == {ArrayOf({Elem(Identifier)} + PatternElements)}
  {
    ExpressionParamsWidenedParts();
    ElementsOfOneArray({Elem(Identifier)});
    ElementsOfOneArray(PatternElements);
    ListWidenedByLayer(3, FunctionExpression, "params", {ArrayOf({Elem(Identifier)})}, {ArrayOf(PatternElements)});
  }

  lemma ObjectPropertiesWidenedParts()
    ensures OnlyLayerField(7, ObjectExpression, "properties", {ArrayOf(NewPropertyElements)})
    ensures Es5FieldIs(ObjectExpression, "properties", {ArrayOf({Elem(BasicProperty), Elem(AccessorProperty)})})
  {
  }

  /** `ObjectExpression.properties` is one array that adds the five new property kinds. */
  lemma ObjectPropertiesWidened()
    ensures ObjectExpression in ES2015.nodes && "properties" in ES2015.nodes[ObjectExpression]
    ensures ES2015.nodes[ObjectExpression]["properties"] == {ArrayOf({Elem(BasicProperty), Elem(AccessorProperty)} + NewPropertyElements)}
  {
    ObjectPropertiesWidenedParts();
    ElementsOfOneArray({Elem(BasicProperty), Elem(AccessorProperty)});
    ElementsOfOneArray(NewPropertyElements);
    ListWidenedByLayer(7, ObjectExpression, "properties", {ArrayOf({Elem(BasicProperty), Elem(AccessorProperty)})}, {ArrayOf(NewPropertyElements)});
  }

  //----------------------------------------------------------------------------
  // SpreadElement
  //----------------------------------------------------------------------------

  /** `SpreadElement` is not an ES5 kind. */
  lemma SpreadElementNotEs5()
    ensures SpreadElement !in ES5.nodes
  {
    Es5Shape();
  }

  lemma SpreadElementInSpreadLayer()
    ensures SpreadElement in LayerParts()[9].nodes
  {
    SpreadPartAt();
    SpreadPartNodes(SpreadElement);
  }

  /** The Spread layer defines `SpreadElement`. */
  lemma SpreadElementFromSpread()
    ensures SpreadElement in ES2015.nodes
  {
    SpreadElementInSpreadLayer();
    LayerKindKept(9, SpreadElement);
  }

  lemma SpreadElementNeither()
    ensures SpreadElement !in Statements + NewStatements && SpreadElement !in Expressions + NewExpressions
  {
  }

  lemma SpreadElementNotInEs5Table()
    ensures forall p :: Kind(SpreadElement) !in Es5References(p)
  {
  }

  lemma SpreadElementOnlyInSpreadLayer()
    ensures forall i :: 0 <= i < 11 && i != 9 ==> Kind(SpreadElement) !in ReferencedByLayers()[i]
  {
  }

  lemma SpreadElementSpreadReferrers()
    ensures forall p :: Kind(SpreadElement) in SpreadReferences(p) ==> p in {ArrayExpression, CallExpression, NewExpression}
  {
  }

  lemma SpreadElementReferrers()
    ensures forall p :: p in SpreadPart.nodes && Mentions(SpreadPart.nodes[p], Kind(SpreadElement)) ==>
      p in {ArrayExpression, CallExpression, NewExpression}
  {
    forall p | p in SpreadPart.nodes && Mentions(SpreadPart.nodes[p], Kind(SpreadElement))
      ensures p in {ArrayExpression, CallExpression, NewExpression}
    {
      SpreadMentions(p, Kind(SpreadElement));
      SpreadElementSpreadReferrers();
    }
  }

  lemma SpreadElementNamed()
    ensures forall q :: q in {ArrayExpression, CallExpression, NewExpression} ==>
      q in SpreadPart.nodes && Mentions(SpreadPart.nodes[q], Kind(SpreadElement))
  {
    SpreadPartNodes(ArrayExpression);
    NamedBy(SpreadPart.nodes[ArrayExpression], "elements", ArrayOf({Elem(SpreadElement)}), SpreadElement);
    SpreadPartNodes(CallExpression);
    NamedBy(SpreadPart.nodes[CallExpression], "arguments", ArrayOf({Elem(SpreadElement)}), SpreadElement);
    SpreadPartNodes(NewExpression);
    NamedBy(SpreadPart.nodes[NewExpression], "arguments", ArrayOf({Elem(SpreadElement)}), SpreadElement);
  }

  /** The parents of `SpreadElement` are exactly the array, call and `new` expressions. */
  lemma SpreadElementParents()
    ensures ParentType(ES2015, SpreadElement) == {ArrayExpression, CallExpression, NewExpression}
    ensures ParentProperty(ES2015, SpreadElement) == Some({ArrayExpression, CallExpression, NewExpression})
  {
    SpreadElementFromSpread();
    SpreadElementNeither();
    SpreadElementNotInEs5Table();
    SpreadElementOnlyInSpreadLayer();
    SpreadPartAt();
    SpreadElementReferrers();
    SpreadElementNamed();
    ParentsFromLayer(SpreadElement, 9, {ArrayExpression, CallExpression, NewExpression});
  }

  //----------------------------------------------------------------------------
  // Roots
  //----------------------------------------------------------------------------

  lemma ProgramNeither()
    ensures Program in Kinds
    ensures Program !in Statements + NewStatements && Program !in Expressions + NewExpressions
  {
  }

  lemma ProgramNotInEs5Table()
    ensures forall p :: Kind(Program) !in Es5References(p)
  {
  }

  lemma ProgramNotInLayers()
    ensures forall i :: 0 <= i < 11 ==> Kind(Program) !in ReferencedByLayers()[i]
  {
  }

  /** `Program` stays a root: no field refers to it, so its `parent` is `null`. */
  lemma ProgramStaysRoot()
    ensures Program in ES2015.nodes && ParentProperty(ES2015, Program) == None
  {
    ProgramNeither();
    ProgramNotInEs5Table();
    ProgramNotInLayers();
    Es5KindKept(Program);
    RootAfterFold(Program);
  }

  lemma ModuleProgramTyped()
    ensures ModuleProgram !in Kinds && OnlyLayerField(6, ModuleProgram, "type", TypeTag(Program))
  {
  }

  lemma ModuleProgramNeither()
    ensures ModuleProgram !in Statements + NewStatements && ModuleProgram !in Expressions + NewExpressions
  {
  }

  lemma ModuleProgramNotInEs5Table()
    ensures forall p :: Kind(ModuleProgram) !in Es5References(p)
  {
  }

  lemma ModuleProgramNotInLayers()
    ensures forall i :: 0 <= i < 11 ==> Kind(ModuleProgram) !in ReferencedByLayers()[i]
  {
  }

  /**
   * `ModuleProgram`, which the Module layer adds, is a second root: no field
   * refers to it, and it carries the tag `Program`.
   */
  lemma ModuleProgramIsRoot()
    ensures ModuleProgram in ES2015.nodes && ParentProperty(ES2015, ModuleProgram) == None
    ensures Tag(ModuleProgram, ES2015.nodes[ModuleProgram]) == {Program}
  {
    ModuleProgramTyped();
    ModuleProgramNeither();
    ModuleProgramNotInEs5Table();
    ModuleProgramNotInLayers();
    TagFromLayer(6, ModuleProgram, Program);
    RootAfterFold(ModuleProgram);
  }

  //----------------------------------------------------------------------------
  // Pattern tags
  //----------------------------------------------------------------------------

  lemma AssignmentArrayPatternTyped()
    ensures AssignmentArrayPattern !in Kinds && OnlyLayerField(2, AssignmentArrayPattern, "type", TypeTag(ArrayPattern))
  {
  }

  lemma BindingArrayPatternTyped()
    ensures BindingArrayPattern !in Kinds && OnlyLayerField(3, BindingArrayPattern, "type", TypeTag(ArrayPattern))
  {
  }

  /** The assignment and the binding form of array patterns share the tag `ArrayPattern`, which selects both. */
  lemma ArrayPatternTags()
    ensures AssignmentArrayPattern in ES2015.nodes && Tag(AssignmentArrayPattern, ES2015.nodes[AssignmentArrayPattern]) == {ArrayPattern}
    ensures AssignmentArrayPattern in ExtractNode(ES2015, Kind(ArrayPattern))
    ensures BindingArrayPattern in ES2015.nodes && Tag(BindingArrayPattern, ES2015.nodes[BindingArrayPattern]) == {ArrayPattern}
    ensures BindingArrayPattern in ExtractNode(ES2015, Kind(ArrayPattern))
  {
    AssignmentArrayPatternTyped();
    TagFromLayer(2, AssignmentArrayPattern, ArrayPattern);
    BindingArrayPatternTyped();
    TagFromLayer(3, BindingArrayPattern, ArrayPattern);
    ExtractNodeByTag(ES2015, AssignmentArrayPattern, ArrayPattern, ArrayPattern);
    ExtractNodeByTag(ES2015, BindingArrayPattern, ArrayPattern, ArrayPattern);
  }

  lemma AssignmentObjectPatternTyped()
    ensures AssignmentObjectPattern !in Kinds && OnlyLayerField(2, AssignmentObjectPattern, "type", TypeTag(ObjectPattern))
  {
  }

  lemma BindingObjectPatternTyped()
    ensures BindingObjectPattern !in Kinds && OnlyLayerField(3, BindingObjectPattern, "type", TypeTag(ObjectPattern))
  {
  }

  /** The assignment and the binding form of object patterns share the tag `ObjectPattern`, which selects both. */
  lemma ObjectPatternTags()
    ensures AssignmentObjectPattern in ES2015.nodes && Tag(AssignmentObjectPattern, ES2015.nodes[AssignmentObjectPattern]) == {ObjectPattern}
    ensures AssignmentObjectPattern in ExtractNode(ES2015, Kind(ObjectPattern))
    ensures BindingObjectPattern in ES2015.nodes && Tag(BindingObjectPattern, ES2015.nodes[BindingObjectPattern]) == {ObjectPattern}
    ensures BindingObjectPattern in ExtractNode(ES2015, Kind(ObjectPattern))
  {
    AssignmentObjectPatternTyped();
    TagFromLayer(2, AssignmentObjectPattern, ObjectPattern);
    BindingObjectPatternTyped();
    TagFromLayer(3, BindingObjectPattern, ObjectPattern);
    ExtractNodeByTag(ES2015, AssignmentObjectPattern, ObjectPattern, ObjectPattern);
    ExtractNodeByTag(ES2015, BindingObjectPattern, ObjectPattern, ObjectPattern);
  }

  lemma AssignmentAssignmentPatternTyped()
    ensures AssignmentAssignmentPattern !in Kinds && OnlyLayerField(2, AssignmentAssignmentPattern, "type", TypeTag(AssignmentPattern))
  {
  }

  lemma BindingAssignmentPatternTyped()
    ensures BindingAssignmentPattern !in Kinds && OnlyLayerField(3, BindingAssignmentPattern, "type", TypeTag(AssignmentPattern))
  {
  }

  /** The assignment and the binding form of default-value patterns share the tag `AssignmentPattern`, which selects both. */
  lemma AssignmentPatternTags()
    ensures AssignmentAssignmentPattern in ES2015.nodes && Tag(AssignmentAssignmentPattern, ES2015.nodes[AssignmentAssignmentPattern]) == {AssignmentPattern}
    ensures AssignmentAssignmentPattern in ExtractNode(ES2015, Kind(AssignmentPattern))
    ensures BindingAssignmentPattern in ES2015.nodes && Tag(BindingAssignmentPattern, ES2015.nodes[BindingAssignmentPattern]) == {AssignmentPattern}
    ensures BindingAssignmentPattern in ExtractNode(ES2015, Kind(AssignmentPattern))
  {
    AssignmentAssignmentPatternTyped();
    TagFromLayer(2, AssignmentAssignmentPattern, AssignmentPattern);
    BindingAssignmentPatternTyped();
    TagFromLayer(3, BindingAssignmentPattern, AssignmentPattern);
    ExtractNodeByTag(ES2015, AssignmentAssignmentPattern, AssignmentPattern, AssignmentPattern);
    ExtractNodeByTag(ES2015, BindingAssignmentPattern, AssignmentPattern, AssignmentPattern);
  }

  lemma AssignmentRestElementTyped()
    ensures AssignmentRestElement !in Kinds && OnlyLayerField(2, AssignmentRestElement, "type", TypeTag(RestElement))
  {
  }

  lemma BindingRestElementTyped()
    ensures BindingRestElement !in Kinds && OnlyLayerField(3, BindingRestElement, "type", TypeTag(RestElement))
  {
  }

  /** The assignment and the binding form of rest elements share the tag `RestElement`, which selects both. */
  lemma RestElementTags()
    ensures AssignmentRestElement in ES2015.nodes && Tag(AssignmentRestElement, ES2015.nodes[AssignmentRestElement]) == {RestElement}
    ensures AssignmentRestElement in ExtractNode(ES2015, Kind(RestElement))
    ensures BindingRestElement in ES2015.nodes && Tag(BindingRestElement, ES2015.nodes[BindingRestElement]) == {RestElement}
    ensures BindingRestElement in ExtractNode(ES2015, Kind(RestElement))
  {
    AssignmentRestElementTyped();
    TagFromLayer(2, AssignmentRestElement, RestElement);
    BindingRestElementTyped();
    TagFromLayer(3, BindingRestElement, RestElement);
    ExtractNodeByTag(ES2015, AssignmentRestElement, RestElement, RestElement);
    ExtractNodeByTag(ES2015, BindingRestElement, RestElement, RestElement);
  }

  lemma AssignmentPropertyTyped()
    ensures AssignmentProperty !in Kinds && OnlyLayerField(2, AssignmentProperty, "type", TypeTag(Property))
  {
  }

  lemma AssignmentShorthandPropertyTyped()
    ensures AssignmentShorthandProperty !in Kinds && OnlyLayerField(2, AssignmentShorthandProperty, "type", TypeTag(Property))
  {
  }

  lemma AssignmentComputedPropertyTyped()
    ensures AssignmentComputedProperty !in Kinds && OnlyLayerField(2, AssignmentComputedProperty, "type", TypeTag(Property))
  {
  }

  /** The three assignment pattern property kinds carry the tag `Property`, which selects them. */
  lemma AssignmentPropertyTags()
    ensures AssignmentProperty in ES2015.nodes && Tag(AssignmentProperty, ES2015.nodes[AssignmentProperty]) == {Property}
    ensures AssignmentProperty in ExtractNode(ES2015, Kind(Property))
    ensures AssignmentShorthandProperty in ES2015.nodes && Tag(AssignmentShorthandProperty, ES2015.nodes[AssignmentShorthandProperty]) == {Property}
    ensures AssignmentShorthandProperty in ExtractNode(ES2015, Kind(Property))
    ensures AssignmentComputedProperty in ES2015.nodes && Tag(AssignmentComputedProperty, ES2015.nodes[AssignmentComputedProperty]) == {Property}
    ensures AssignmentComputedProperty in ExtractNode(ES2015, Kind(Property))
  {
    AssignmentPropertyTyped();
    TagFromLayer(2, AssignmentProperty, Property);
    AssignmentShorthandPropertyTyped();
    TagFromLayer(2, AssignmentShorthandProperty, Property);
    AssignmentComputedPropertyTyped();
    TagFromLayer(2, AssignmentComputedProperty, Property);
    ExtractNodeByTag(ES2015, AssignmentProperty, Property, Property);
    ExtractNodeByTag(ES2015, AssignmentShorthandProperty, Property, Property);
    ExtractNodeByTag(ES2015, AssignmentComputedProperty, Property, Property);
  }

  lemma BindingPropertyTyped()
    ensures BindingProperty !in Kinds && OnlyLayerField(3, BindingProperty, "type", TypeTag(Property))
  {
  }

  lemma BindingShorthandPropertyTyped()
    ensures BindingShorthandProperty !in Kinds && OnlyLayerField(3, BindingShorthandProperty, "type", TypeTag(Property))
  {
  }

  lemma BindingComputedPropertyTyped()
    ensures BindingComputedProperty !in Kinds && OnlyLayerField(3, BindingComputedProperty, "type", TypeTag(Property))
  {
  }

  /** The three binding pattern property kinds carry the tag `Property`, which selects them. */
  lemma BindingPropertyTags()
    ensures BindingProperty in ES2015.nodes && Tag(BindingProperty, ES2015.nodes[BindingProperty]) == {Property}
    ensures BindingProperty in ExtractNode(ES2015, Kind(Property))
    ensures BindingShorthandProperty in ES2015.nodes && Tag(BindingShorthandProperty, ES2015.nodes[BindingShorthandProperty]) == {Property}
    ensures BindingShorthandProperty in ExtractNode(ES2015, Kind(Property))
    ensures BindingComputedProperty in ES2015.nodes && Tag(BindingComputedProperty, ES2015.nodes[BindingComputedProperty]) == {Property}
    ensures BindingComputedProperty in ExtractNode(ES2015, Kind(Property))
  {
    BindingPropertyTyped();
    TagFromLayer(3, BindingProperty, Property);
    BindingShorthandPropertyTyped();
    TagFromLayer(3, BindingShorthandProperty, Property);
    BindingComputedPropertyTyped();
    TagFromLayer(3, BindingComputedProperty, Property);
    ExtractNodeByTag(ES2015, BindingProperty, Property, Property);
    ExtractNodeByTag(ES2015, BindingShorthandProperty, Property, Property);
    ExtractNodeByTag(ES2015, BindingComputedProperty, Property, Property);
  }
}
