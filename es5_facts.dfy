/**
 * Facts that the declarations of lib/types/ast-es5.d.ts encode, proved about
 * the constant `Es5.ES5`.
 */
module Es5Facts {
  import opened Definer
  import opened Grammar
  import opened Es5
  import opened Relations

  //----------------------------------------------------------------------------
  // What each kind refers to
  //----------------------------------------------------------------------------

  /**
   * The names that the fields of each ES5 kind refer to, read off the
   * declarations kind by kind.
   */
  function Es5References(k: Name): set<TypeName<Name>>
  {
    match k
    case Program => {AnyStatement}
    case BlockStatement => {AnyStatement}
    case BreakStatement => {Kind(Identifier)}
    case ContinueStatement => {Kind(Identifier)}
    case DoWhileStatement => {AnyStatement, AnyExpression}
    case ExpressionStatement => {AnyExpression}
    case ForInStatement =>
      {Kind(Identifier), Kind(BasicMemberExpression), Kind(ComputedMemberExpression),
       Kind(VariableDeclaration), AnyExpression, AnyStatement}
    case ForStatement => {Kind(VariableDeclaration), AnyExpression, AnyStatement}
    case FunctionDeclaration => {Kind(Identifier), Kind(BlockStatement)}
    case IfStatement => {AnyExpression, AnyStatement}
    case LabeledStatement => {Kind(Identifier), AnyStatement}
    case ReturnStatement => {AnyExpression}
    case SwitchStatement => {AnyExpression, Kind(SwitchCase)}
    case ThrowStatement => {AnyExpression}
    case TryStatement => {Kind(BlockStatement), Kind(CatchClause)}
    case VariableDeclaration => {Kind(VariableDeclarator)}
    case WhileStatement => {AnyExpression, AnyStatement}
    case WithStatement => {AnyExpression, AnyStatement}
    case ArrayExpression => {AnyExpression}
    case AssignmentExpression =>
      {Kind(Identifier), Kind(BasicMemberExpression), Kind(ComputedMemberExpression), AnyExpression}
    case BinaryExpression => {AnyExpression}
    case CallExpression => {AnyExpression}
    case ConditionalExpression => {AnyExpression}
    case FunctionExpression => {Kind(Identifier), Kind(BlockStatement)}
    case LogicalExpression => {AnyExpression}
    case BasicMemberExpression => {AnyExpression, Kind(Identifier)}
    case ComputedMemberExpression => {AnyExpression}
    case NewExpression => {AnyExpression}
    case ObjectExpression => {Kind(BasicProperty), Kind(AccessorProperty)}
    case SequenceExpression => {AnyExpression}
    case UnaryExpression => {AnyExpression}
    case UpdateExpression =>
      {Kind(Identifier), Kind(BasicMemberExpression), Kind(ComputedMemberExpression)}
    case CatchClause => {Kind(Identifier), Kind(BlockStatement)}
    case BasicProperty => {Kind(Identifier), Kind(NumberLiteral), Kind(StringLiteral), AnyExpression}
    case AccessorProperty =>
      {Kind(Identifier), Kind(NumberLiteral), Kind(StringLiteral), Kind(FunctionExpression)}
    case SwitchCase => {AnyExpression, AnyStatement}
    case VariableDeclarator => {Kind(Identifier), AnyExpression}
    case _ => {}
  }

  lemma ProgramReferences(n: TypeName<Name>)
    requires Mentions(RootAndBlockBody(Program), n)
    ensures n in Es5References(Program)
  {
  }

  lemma BlockStatementReferences(n: TypeName<Name>)
    requires Mentions(RootAndBlockBody(BlockStatement), n)
    ensures n in Es5References(BlockStatement)
  {
  }

  lemma DebuggerStatementReferences(n: TypeName<Name>)
    ensures !Mentions(RootAndBlockBody(DebuggerStatement), n)
  {
  }

  lemma EmptyStatementReferences(n: TypeName<Name>)
    ensures !Mentions(RootAndBlockBody(EmptyStatement), n)
  {
  }

  lemma ExpressionStatementReferences(n: TypeName<Name>)
    requires Mentions(RootAndBlockBody(ExpressionStatement), n)
    ensures n in Es5References(ExpressionStatement)
  {
  }

  lemma VariableDeclarationReferences(n: TypeName<Name>)
    requires Mentions(RootAndBlockBody(VariableDeclaration), n)
    ensures n in Es5References(VariableDeclaration)
  {
  }

  lemma RootAndBlockReferences(p: Name, n: TypeName<Name>)
    requires GroupOf(p).RootAndBlocks? && Mentions(RootAndBlockBody(p), n)
    ensures n in Es5References(p)
  {
    match p
    case Program => ProgramReferences(n);
    case BlockStatement => BlockStatementReferences(n);
    case DebuggerStatement => assert false;
    case EmptyStatement => assert false;
    case ExpressionStatement => ExpressionStatementReferences(n);
    case VariableDeclaration => VariableDeclarationReferences(n);
  }

  lemma BreakStatementReferences(n: TypeName<Name>)
    requires Mentions(ControlBody(BreakStatement), n)
    ensures n in Es5References(BreakStatement)
  {
  }

  lemma ContinueStatementReferences(n: TypeName<Name>)
    requires Mentions(ControlBody(ContinueStatement), n)
    ensures n in Es5References(ContinueStatement)
  {
  }

  lemma IfStatementReferences(n: TypeName<Name>)
    requires Mentions(ControlBody(IfStatement), n)
    ensures n in Es5References(IfStatement)
  {
  }

  lemma LabeledStatementReferences(n: TypeName<Name>)
    requires Mentions(ControlBody(LabeledStatement), n)
    ensures n in Es5References(LabeledStatement)
  {
  }

  lemma ReturnStatementReferences(n: TypeName<Name>)
    requires Mentions(ControlBody(ReturnStatement), n)
    ensures n in Es5References(ReturnStatement)
  {
  }

  lemma ThrowStatementReferences(n: TypeName<Name>)
    requires Mentions(ControlBody(ThrowStatement), n)
    ensures n in Es5References(ThrowStatement)
  {
  }

  lemma ControlReferences(p: Name, n: TypeName<Name>)
    requires GroupOf(p).ControlTransfers? && Mentions(ControlBody(p), n)
    ensures n in Es5References(p)
  {
    match p
    case BreakStatement => BreakStatementReferences(n);
    case ContinueStatement => ContinueStatementReferences(n);
    case IfStatement => IfStatementReferences(n);
    case LabeledStatement => LabeledStatementReferences(n);
    case ReturnStatement => ReturnStatementReferences(n);
    case ThrowStatement => ThrowStatementReferences(n);
  }

  lemma DoWhileStatementReferences(n: TypeName<Name>)
    requires Mentions(LoopBody(DoWhileStatement), n)
    ensures n in Es5References(DoWhileStatement)
  {
  }

  lemma ForInStatementReferences(n: TypeName<Name>)
    requires Mentions(LoopBody(ForInStatement), n)
    ensures n in Es5References(ForInStatement)
  {
  }

  lemma ForStatementReferences(n: TypeName<Name>)
    requires Mentions(LoopBody(ForStatement), n)
    ensures n in Es5References(ForStatement)
  {
  }

  lemma WhileStatementReferences(n: TypeName<Name>)
    requires Mentions(LoopBody(WhileStatement), n)
    ensures n in Es5References(WhileStatement)
  {
  }

  lemma LoopReferences(p: Name, n: TypeName<Name>)
    requires GroupOf(p).Loops? && Mentions(LoopBody(p), n)
    ensures n in Es5References(p)
  {
    match p
    case DoWhileStatement => DoWhileStatementReferences(n);
    case ForInStatement => ForInStatementReferences(n);
    case ForStatement => ForStatementReferences(n);
    case WhileStatement => WhileStatementReferences(n);
  }

  lemma FunctionDeclarationReferences(n: TypeName<Name>)
    requires Mentions(CompoundBody(FunctionDeclaration), n)
    ensures n in Es5References(FunctionDeclaration)
  {
  }

  lemma SwitchStatementReferences(n: TypeName<Name>)
    requires Mentions(CompoundBody(SwitchStatement), n)
    ensures n in Es5References(SwitchStatement)
  {
  }

  lemma TryStatementReferences(n: TypeName<Name>)
    requires Mentions(CompoundBody(TryStatement), n)
    ensures n in Es5References(TryStatement)
  {
  }

  lemma WithStatementReferences(n: TypeName<Name>)
    requires Mentions(CompoundBody(WithStatement), n)
    ensures n in Es5References(WithStatement)
  {
  }

  lemma CompoundReferences(p: Name, n: TypeName<Name>)
    requires GroupOf(p).CompoundStatements? && Mentions(CompoundBody(p), n)
    ensures n in Es5References(p)
  {
    match p
    case FunctionDeclaration => FunctionDeclarationReferences(n);
    case SwitchStatement => SwitchStatementReferences(n);
    case TryStatement => TryStatementReferences(n);
    case WithStatement => WithStatementReferences(n);
  }

  lemma AssignmentExpressionReferences(n: TypeName<Name>)
    requires Mentions(OperatorBody(AssignmentExpression), n)
    ensures n in Es5References(AssignmentExpression)
  {
  }

  lemma BinaryExpressionReferences(n: TypeName<Name>)
    requires Mentions(OperatorBody(BinaryExpression), n)
    ensures n in Es5References(BinaryExpression)
  {
  }

  lemma LogicalExpressionReferences(n: TypeName<Name>)
    requires Mentions(OperatorBody(LogicalExpression), n)
    ensures n in Es5References(LogicalExpression)
  {
  }

  lemma UnaryExpressionReferences(n: TypeName<Name>)
    requires Mentions(OperatorBody(UnaryExpression), n)
    ensures n in Es5References(UnaryExpression)
  {
  }

  lemma UpdateExpressionReferences(n: TypeName<Name>)
    requires Mentions(OperatorBody(UpdateExpression), n)
    ensures n in Es5References(UpdateExpression)
  {
  }

  lemma OperatorReferences(p: Name, n: TypeName<Name>)
    requires GroupOf(p).OperatorExpressions? && Mentions(OperatorBody(p), n)
    ensures n in Es5References(p)
  {
    match p
    case AssignmentExpression => AssignmentExpressionReferences(n);
    case BinaryExpression => BinaryExpressionReferences(n);
    case LogicalExpression => LogicalExpressionReferences(n);
    case UnaryExpression => UnaryExpressionReferences(n);
    case UpdateExpression => UpdateExpressionReferences(n);
  }

  lemma BooleanLiteralReferences(n: TypeName<Name>)
    ensures !Mentions(LiteralBody(BooleanLiteral), n)
  {
  }

  lemma NullLiteralReferences(n: TypeName<Name>)
    ensures !Mentions(LiteralBody(NullLiteral), n)
  {
  }

  lemma NumberLiteralReferences(n: TypeName<Name>)
    ensures !Mentions(LiteralBody(NumberLiteral), n)
  {
  }

  lemma RegExpLiteralReferences(n: TypeName<Name>)
    ensures !Mentions(LiteralBody(RegExpLiteral), n)
  {
  }

  lemma StringLiteralReferences(n: TypeName<Name>)
    ensures !Mentions(LiteralBody(StringLiteral), n)
  {
  }

  lemma LiteralReferences(p: Name, n: TypeName<Name>)
    requires GroupOf(p).LiteralExpressions?
    ensures !Mentions(LiteralBody(p), n)
  {
    match p
    case BooleanLiteral => BooleanLiteralReferences(n);
    case NullLiteral => NullLiteralReferences(n);
    case NumberLiteral => NumberLiteralReferences(n);
    case RegExpLiteral => RegExpLiteralReferences(n);
    case StringLiteral => StringLiteralReferences(n);
  }

  lemma ArrayExpressionReferences(n: TypeName<Name>)
    requires Mentions(PrimaryBody(ArrayExpression), n)
    ensures n in Es5References(ArrayExpression)
  {
  }

  lemma FunctionExpressionReferences(n: TypeName<Name>)
    requires Mentions(PrimaryBody(FunctionExpression), n)
    ensures n in Es5References(FunctionExpression)
  {
  }

  lemma IdentifierReferences(n: TypeName<Name>)
    ensures !Mentions(PrimaryBody(Identifier), n)
  {
  }

  lemma ObjectExpressionReferences(n: TypeName<Name>)
    requires Mentions(PrimaryBody(ObjectExpression), n)
    ensures n in Es5References(ObjectExpression)
  {
  }

  lemma SequenceExpressionReferences(n: TypeName<Name>)
    requires Mentions(PrimaryBody(SequenceExpression), n)
    ensures n in Es5References(SequenceExpression)
  {
  }

  lemma ThisExpressionReferences(n: TypeName<Name>)
    ensures !Mentions(PrimaryBody(ThisExpression), n)
  {
  }

  lemma PrimaryReferences(p: Name, n: TypeName<Name>)
    requires GroupOf(p).PrimaryExpressions? && Mentions(PrimaryBody(p), n)
    ensures n in Es5References(p)
  {
    match p
    case ArrayExpression => ArrayExpressionReferences(n);
    case FunctionExpression => FunctionExpressionReferences(n);
    case Identifier => assert false;
    case ObjectExpression => ObjectExpressionReferences(n);
    case SequenceExpression => SequenceExpressionReferences(n);
    case ThisExpression => assert false;
  }

  lemma CallExpressionReferences(n: TypeName<Name>)
    requires Mentions(LeftHandSideBody(CallExpression), n)
    ensures n in Es5References(CallExpression)
  {
  }

  lemma ConditionalExpressionReferences(n: TypeName<Name>)
    requires Mentions(LeftHandSideBody(ConditionalExpression), n)
    ensures n in Es5References(ConditionalExpression)
  {
  }

  lemma BasicMemberExpressionReferences(n: TypeName<Name>)
    requires Mentions(LeftHandSideBody(BasicMemberExpression), n)
    ensures n in Es5References(BasicMemberExpression)
  {
  }

  lemma ComputedMemberExpressionReferences(n: TypeName<Name>)
    requires Mentions(LeftHandSideBody(ComputedMemberExpression), n)
    ensures n in Es5References(ComputedMemberExpression)
  {
  }

  lemma NewExpressionReferences(n: TypeName<Name>)
    requires Mentions(LeftHandSideBody(NewExpression), n)
    ensures n in Es5References(NewExpression)
  {
  }

  lemma LeftHandSideReferences(p: Name, n: TypeName<Name>)
    requires GroupOf(p).LeftHandSideExpressions? && Mentions(LeftHandSideBody(p), n)
    ensures n in Es5References(p)
  {
    match p
    case CallExpression => CallExpressionReferences(n);
    case ConditionalExpression => ConditionalExpressionReferences(n);
    case BasicMemberExpression => BasicMemberExpressionReferences(n);
    case ComputedMemberExpression => ComputedMemberExpressionReferences(n);
    case NewExpression => NewExpressionReferences(n);
  }

  lemma CatchClauseReferences(n: TypeName<Name>)
    requires Mentions(OtherBody(CatchClause), n)
    ensures n in Es5References(CatchClause)
  {
  }

  lemma BasicPropertyReferences(n: TypeName<Name>)
    requires Mentions(OtherBody(BasicProperty), n)
    ensures n in Es5References(BasicProperty)
  {
  }

  lemma AccessorPropertyReferences(n: TypeName<Name>)
    requires Mentions(OtherBody(AccessorProperty), n)
    ensures n in Es5References(AccessorProperty)
  {
  }

  lemma SwitchCaseReferences(n: TypeName<Name>)
    requires Mentions(OtherBody(SwitchCase), n)
    ensures n in Es5References(SwitchCase)
  {
  }

  lemma VariableDeclaratorReferences(n: TypeName<Name>)
    requires Mentions(OtherBody(VariableDeclarator), n)
    ensures n in Es5References(VariableDeclarator)
  {
  }

  lemma OtherReferences(p: Name, n: TypeName<Name>)
    requires GroupOf(p).Others? && Mentions(OtherBody(p), n)
    ensures n in Es5References(p)
  {
    match p
    case CatchClause => CatchClauseReferences(n);
    case BasicProperty => BasicPropertyReferences(n);
    case AccessorProperty => AccessorPropertyReferences(n);
    case SwitchCase => SwitchCaseReferences(n);
    case VariableDeclarator => VariableDeclaratorReferences(n);
  }

  /** Every name that an ES5 field refers to is listed in `Es5References`. */
  lemma References(p: Name, n: TypeName<Name>)
    requires p in ES5.nodes && Mentions(ES5.nodes[p], n)
    ensures n in Es5References(p)
  {
    match GroupOf(p)
    case RootAndBlocks => RootAndBlockReferences(p, n);
    case ControlTransfers => ControlReferences(p, n);
    case Loops => LoopReferences(p, n);
    case CompoundStatements => CompoundReferences(p, n);
    case OperatorExpressions => OperatorReferences(p, n);
    case LiteralExpressions => LiteralReferences(p, n);
    case PrimaryExpressions => PrimaryReferences(p, n);
    case LeftHandSideExpressions => LeftHandSideReferences(p, n);
    case Others => OtherReferences(p, n);
  }

  //----------------------------------------------------------------------------
  // Kinds, statements and expressions
  //----------------------------------------------------------------------------

  /** Every statement is a defined kind. */
  lemma StatementsDefined()
    ensures ES5.statementType <= ES5.nodes.Keys
  {
  }

  /** Every expression is a defined kind. */
  lemma ExpressionsDefined()
    ensures ES5.expressionType <= ES5.nodes.Keys
  {
  }

  predicate StatementGroup(g: Group)
  {
    g.RootAndBlocks? || g.ControlTransfers? || g.Loops? || g.CompoundStatements?
  }

  predicate ExpressionGroup(g: Group)
  {
    g.OperatorExpressions? || g.LiteralExpressions? || g.PrimaryExpressions? || g.LeftHandSideExpressions?
  }

  lemma StatementGroups(k: Name)
    requires k in Statements
    ensures StatementGroup(GroupOf(k))
  {
  }

  lemma ExpressionGroups(k: Name)
    requires k in Expressions
    ensures ExpressionGroup(GroupOf(k))
  {
  }

  /** No kind is both a statement and an expression. */
  lemma KindSetsDisjoint()
    ensures ES5.statementType !! ES5.expressionType
  {
    forall k | k in ES5.statementType && k in ES5.expressionType ensures false {
      StatementGroups(k);
      ExpressionGroups(k);
    }
  }

  //----------------------------------------------------------------------------
  // Roots and parents
  //----------------------------------------------------------------------------

  lemma NoNodeInTable(p: Name)
    ensures AnyNode !in Es5References(p)
  {
  }

  /** No ES5 field refers to `Node`. */
  lemma NoNodeReferences()
    ensures forall p :: p in ES5.nodes ==> !Mentions(ES5.nodes[p], AnyNode)
  {
    forall p | p in ES5.nodes ensures !Mentions(ES5.nodes[p], AnyNode) {
      NoNodeInTable(p);
      if Mentions(ES5.nodes[p], AnyNode) {
        References(p, AnyNode);
      }
    }
  }

  /**
   * A kind that is neither a statement nor an expression has as its parents
   * exactly the kinds `qs` that name it, provided `Es5References` lists it for
   * those kinds alone.
   */
  lemma ParentsByTable(k: Name, qs: set<Name>)
    requires k in ES5.nodes && k !in ES5.statementType && k !in ES5.expressionType
    requires forall p :: Kind(k) in Es5References(p) ==> p in qs
    requires forall q :: q in qs ==> q in ES5.nodes && Mentions(ES5.nodes[q], Kind(k))
    ensures ParentType(ES5, k) == qs
    ensures qs != {} ==> ParentProperty(ES5, k) == Some(qs)
  {
    NoNodeReferences();
    forall p | p in ES5.nodes && Mentions(ES5.nodes[p], Kind(k)) ensures p in qs {
      References(p, Kind(k));
    }
    ExactParents(ES5, k, qs);
  }

  /** Field `f` of kind `q` holds member `m`, which names `k`. */
  lemma NamedIn(q: Name, f: string, m: Member<Name>, k: Name)
    requires q in ES5.nodes && f in ES5.nodes[q] && m in ES5.nodes[q][f]
    requires MemberMentions(m, Kind(k))
    ensures Mentions(ES5.nodes[q], Kind(k))
  {
  }

  /** The kinds of the "Others" group are defined. */
  lemma OthersDefined(k: Name)
    requires GroupOf(k).Others?
    ensures k in ES5.nodes
  {
  }

  /** The kinds of the "Others" group are neither statements nor expressions. */
  lemma OthersAreNeither(k: Name)
    requires GroupOf(k).Others?
    ensures k !in Statements && k !in Expressions
  {
  }

  /** A kind of the "Others" group is a defined kind that is neither a statement nor an expression. */
  lemma IsOther(k: Name)
    requires GroupOf(k).Others?
    ensures k in ES5.nodes && k !in ES5.statementType && k !in ES5.expressionType
  {
    OthersDefined(k);
    OthersAreNeither(k);
  }

  lemma ProgramReferrers()
    ensures forall p :: Kind(Program) in Es5References(p) ==> p in {}
  {
  }

  /** `Program` is neither a statement nor an expression, and it is a root: its `parent` is `null`. */
  lemma ProgramIsRoot()
    ensures Program in ES5.nodes && Program !in ES5.statementType && Program !in ES5.expressionType
    ensures ParentProperty(ES5, Program) == None
  {
    ProgramReferrers();
    ParentsByTable(Program, {});
  }

  lemma SwitchCaseReferrers()
    ensures forall p :: Kind(SwitchCase) in Es5References(p) ==> p in {SwitchStatement}
  {
  }

  lemma SwitchCaseIsOther()
    ensures SwitchCase in ES5.nodes && SwitchCase !in ES5.statementType && SwitchCase !in ES5.expressionType
  {
    IsOther(SwitchCase);
  }

  /** A `SwitchCase` occurs only in `SwitchStatement.cases`. */
  lemma SwitchCaseParent()
    ensures ParentProperty(ES5, SwitchCase) == Some({SwitchStatement})
  {
    NamedIn(SwitchStatement, "cases", ArrayOf({Elem(SwitchCase)}), SwitchCase);
    SwitchCaseReferrers();
    SwitchCaseIsOther();
    ParentsByTable(SwitchCase, {SwitchStatement});
  }

  lemma VariableDeclaratorReferrers()
    ensures forall p :: Kind(VariableDeclarator) in Es5References(p) ==> p in {VariableDeclaration}
  {
  }

  lemma VariableDeclaratorIsOther()
    ensures VariableDeclarator in ES5.nodes && VariableDeclarator !in ES5.statementType && VariableDeclarator !in ES5.expressionType
  {
    IsOther(VariableDeclarator);
  }

  /** A `VariableDeclarator` occurs only in `VariableDeclaration.declarations`. */
  lemma VariableDeclaratorParent()
    ensures ParentProperty(ES5, VariableDeclarator) == Some({VariableDeclaration})
  {
    NamedIn(VariableDeclaration, "declarations", ArrayOf({Elem(VariableDeclarator)}), VariableDeclarator);
    VariableDeclaratorReferrers();
    VariableDeclaratorIsOther();
    ParentsByTable(VariableDeclarator, {VariableDeclaration});
  }

  lemma CatchClauseReferrers()
    ensures forall p :: Kind(CatchClause) in Es5References(p) ==> p in {TryStatement}
  {
  }

  lemma CatchClauseIsOther()
    ensures CatchClause in ES5.nodes && CatchClause !in ES5.statementType && CatchClause !in ES5.expressionType
  {
    IsOther(CatchClause);
  }

  /** A `CatchClause` occurs only in `TryStatement.handler`. */
  lemma CatchClauseParent()
    ensures ParentProperty(ES5, CatchClause) == Some({TryStatement})
  {
    NamedIn(TryStatement, "handler", NodeRef(CatchClause), CatchClause);
    CatchClauseReferrers();
    CatchClauseIsOther();
    ParentsByTable(CatchClause, {TryStatement});
  }

  lemma ObjectExpressionNamesProperties()
    ensures ObjectExpression in ES5.nodes
    ensures Mentions(ES5.nodes[ObjectExpression], Kind(BasicProperty))
    ensures Mentions(ES5.nodes[ObjectExpression], Kind(AccessorProperty))
  {
    var list := ArrayOf({Elem(BasicProperty), Elem(AccessorProperty)});
    NamedIn(ObjectExpression, "properties", list, BasicProperty);
    NamedIn(ObjectExpression, "properties", list, AccessorProperty);
  }

  lemma PropertyReferrers()
    ensures forall p :: Kind(BasicProperty) in Es5References(p) ==> p in {ObjectExpression}
    ensures forall p :: Kind(AccessorProperty) in Es5References(p) ==> p in {ObjectExpression}
  {
  }

  lemma BasicPropertyIsOther()
    ensures BasicProperty in ES5.nodes && BasicProperty !in ES5.statementType && BasicProperty !in ES5.expressionType
  {
    IsOther(BasicProperty);
  }

  /** A `BasicProperty` occurs only in `ObjectExpression.properties`. */
  lemma BasicPropertyParent()
    ensures ParentProperty(ES5, BasicProperty) == Some({ObjectExpression})
  {
    ObjectExpressionNamesProperties();
    PropertyReferrers();
    BasicPropertyIsOther();
    ParentsByTable(BasicProperty, {ObjectExpression});
  }

  lemma AccessorPropertyIsOther()
    ensures AccessorProperty in ES5.nodes && AccessorProperty !in ES5.statementType && AccessorProperty !in ES5.expressionType
  {
    IsOther(AccessorProperty);
  }

  /** An `AccessorProperty` occurs only in `ObjectExpression.properties`. */
  lemma AccessorPropertyParent()
    ensures ParentProperty(ES5, AccessorProperty) == Some({ObjectExpression})
  {
    ObjectExpressionNamesProperties();
    PropertyReferrers();
    AccessorPropertyIsOther();
    ParentsByTable(AccessorProperty, {ObjectExpression});
  }

  /** Field `f` of kind `p` holds member `m`, which names kind `k`, so `p` is a parent of `k`. */
  lemma NamedChild(p: Name, f: string, m: Member<Name>, k: Name)
    requires p in ES5.nodes && f in ES5.nodes[p] && m in ES5.nodes[p][f]
    requires k in ES5.nodes && MemberMentions(m, Kind(k))
    ensures p in ParentType(ES5, k)
  {
    ChildTypeByMentions(ES5, p, k);
  }

  lemma BreakStatementParentOfIdentifier()
    ensures BreakStatement in ParentType(ES5, Identifier)
  {
    NamedChild(BreakStatement, "label", NodeRef(Identifier), Identifier);
  }

  lemma ContinueStatementParentOfIdentifier()
    ensures ContinueStatement in ParentType(ES5, Identifier)
  {
    NamedChild(ContinueStatement, "label", NodeRef(Identifier), Identifier);
  }

  lemma LabeledStatementParentOfIdentifier()
    ensures LabeledStatement in ParentType(ES5, Identifier)
  {
    NamedChild(LabeledStatement, "label", NodeRef(Identifier), Identifier);
  }

  lemma FunctionDeclarationParentOfIdentifier()
    ensures FunctionDeclaration in ParentType(ES5, Identifier)
  {
    NamedChild(FunctionDeclaration, "id", NodeRef(Identifier), Identifier);
  }

  lemma FunctionExpressionParentOfIdentifier()
    ensures FunctionExpression in ParentType(ES5, Identifier)
  {
    NamedChild(FunctionExpression, "params", ArrayOf({Elem(Identifier)}), Identifier);
  }

  lemma BasicMemberExpressionParentOfIdentifier()
    ensures BasicMemberExpression in ParentType(ES5, Identifier)
  {
    NamedChild(BasicMemberExpression, "property", NodeRef(Identifier), Identifier);
  }

  lemma CatchClauseParentOfIdentifier()
    ensures CatchClause in ParentType(ES5, Identifier)
  {
    NamedChild(CatchClause, "param", NodeRef(Identifier), Identifier);
  }

  lemma VariableDeclaratorParentOfIdentifier()
    ensures VariableDeclarator in ParentType(ES5, Identifier)
  {
    NamedChild(VariableDeclarator, "id", NodeRef(Identifier), Identifier);
  }

  /** The kinds that name `Identifier` as a label, an id, a parameter, a property name or a catch parameter are among its parents. */
  lemma IdentifierParents()
    ensures BreakStatement in ParentType(ES5, Identifier) && ContinueStatement in ParentType(ES5, Identifier)
    ensures LabeledStatement in ParentType(ES5, Identifier)
    ensures FunctionDeclaration in ParentType(ES5, Identifier) && FunctionExpression in ParentType(ES5, Identifier)
    ensures BasicMemberExpression in ParentType(ES5, Identifier)
    ensures CatchClause in ParentType(ES5, Identifier) && VariableDeclarator in ParentType(ES5, Identifier)
  {
    BreakStatementParentOfIdentifier();
    ContinueStatementParentOfIdentifier();
    LabeledStatementParentOfIdentifier();
    FunctionDeclarationParentOfIdentifier();
    FunctionExpressionParentOfIdentifier();
    BasicMemberExpressionParentOfIdentifier();
    CatchClauseParentOfIdentifier();
    VariableDeclaratorParentOfIdentifier();
  }
}
