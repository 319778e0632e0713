/**
 * Facts about the fields of lib/types/ast-es5.d.ts: the `type` tags that
 * several kinds share, the fields that tell those kinds apart, and the kinds
 * that assignment targets admit.
 */
module Es5Fields {
  import opened Definer
  import opened Grammar
  import opened Es5
  import opened Relations
  import opened Es5Facts

  //----------------------------------------------------------------------------
  // Tags
  //----------------------------------------------------------------------------

  lemma RootAndBlockTags(p: Name)
    requires GroupOf(p).RootAndBlocks?
    ensures Tag(p, RootAndBlockBody(p)) == {TagOf(p)} && StringTags(RootAndBlockBody(p)) == {}
  {
  }

  lemma ControlTags(p: Name)
    requires GroupOf(p).ControlTransfers?
    ensures Tag(p, ControlBody(p)) == {TagOf(p)} && StringTags(ControlBody(p)) == {}
  {
  }

  lemma LoopTags(p: Name)
    requires GroupOf(p).Loops?
    ensures Tag(p, LoopBody(p)) == {TagOf(p)} && StringTags(LoopBody(p)) == {}
  {
  }

  lemma CompoundTags(p: Name)
    requires GroupOf(p).CompoundStatements?
    ensures Tag(p, CompoundBody(p)) == {TagOf(p)} && StringTags(CompoundBody(p)) == {}
  {
  }

  lemma AssignmentExpressionTag()
    ensures Tag(AssignmentExpression, OperatorBody(AssignmentExpression)) == {AssignmentExpression} && StringTags(OperatorBody(AssignmentExpression)) == {}
  {
  }

  lemma BinaryExpressionTag()
    ensures Tag(BinaryExpression, OperatorBody(BinaryExpression)) == {BinaryExpression} && StringTags(OperatorBody(BinaryExpression)) == {}
  {
  }

  lemma LogicalExpressionTag()
    ensures Tag(LogicalExpression, OperatorBody(LogicalExpression)) == {LogicalExpression} && StringTags(OperatorBody(LogicalExpression)) == {}
  {
  }

  lemma UnaryExpressionTag()
    ensures Tag(UnaryExpression, OperatorBody(UnaryExpression)) == {UnaryExpression} && StringTags(OperatorBody(UnaryExpression)) == {}
  {
  }

  lemma UpdateExpressionTag()
    ensures Tag(UpdateExpression, OperatorBody(UpdateExpression)) == {UpdateExpression} && StringTags(OperatorBody(UpdateExpression)) == {}
  {
  }

  lemma OperatorTags(p: Name)
    requires GroupOf(p).OperatorExpressions?
    ensures Tag(p, OperatorBody(p)) == {TagOf(p)} && StringTags(OperatorBody(p)) == {}
  {
    match p
    case AssignmentExpression => AssignmentExpressionTag();
    case BinaryExpression => BinaryExpressionTag();
    case LogicalExpression => LogicalExpressionTag();
    case UnaryExpression => UnaryExpressionTag();
    case UpdateExpression => UpdateExpressionTag();
  }

  lemma PrimaryTags(p: Name)
    requires GroupOf(p).PrimaryExpressions?
    ensures Tag(p, PrimaryBody(p)) == {TagOf(p)} && StringTags(PrimaryBody(p)) == {}
  {
  }

  lemma BooleanLiteralTag()
    ensures Tag(BooleanLiteral, LiteralBody(BooleanLiteral)) == {Literal} && StringTags(LiteralBody(BooleanLiteral)) == {}
  {
    DeclaredTag(BooleanLiteral, LiteralBody(BooleanLiteral), Literal);
  }

  lemma NullLiteralTag()
    ensures Tag(NullLiteral, LiteralBody(NullLiteral)) == {Literal} && StringTags(LiteralBody(NullLiteral)) == {}
  {
    DeclaredTag(NullLiteral, LiteralBody(NullLiteral), Literal);
  }

  lemma NumberLiteralTag()
    ensures Tag(NumberLiteral, LiteralBody(NumberLiteral)) == {Literal} && StringTags(LiteralBody(NumberLiteral)) == {}
  {
    DeclaredTag(NumberLiteral, LiteralBody(NumberLiteral), Literal);
  }

  lemma RegExpLiteralTag()
    ensures Tag(RegExpLiteral, LiteralBody(RegExpLiteral)) == {Literal} && StringTags(LiteralBody(RegExpLiteral)) == {}
  {
    DeclaredTag(RegExpLiteral, LiteralBody(RegExpLiteral), Literal);
  }

  lemma StringLiteralTag()
    ensures Tag(StringLiteral, LiteralBody(StringLiteral)) == {Literal} && StringTags(LiteralBody(StringLiteral)) == {}
  {
    DeclaredTag(StringLiteral, LiteralBody(StringLiteral), Literal);
  }

  lemma BasicMemberExpressionTag()
    ensures Tag(BasicMemberExpression, LeftHandSideBody(BasicMemberExpression)) == {MemberExpression} && StringTags(LeftHandSideBody(BasicMemberExpression)) == {}
  {
    DeclaredTag(BasicMemberExpression, LeftHandSideBody(BasicMemberExpression), MemberExpression);
  }

  lemma ComputedMemberExpressionTag()
    ensures Tag(ComputedMemberExpression, LeftHandSideBody(ComputedMemberExpression)) == {MemberExpression} && StringTags(LeftHandSideBody(ComputedMemberExpression)) == {}
  {
    DeclaredTag(ComputedMemberExpression, LeftHandSideBody(ComputedMemberExpression), MemberExpression);
  }

  lemma BasicPropertyTag()
    ensures Tag(BasicProperty, OtherBody(BasicProperty)) == {Property} && StringTags(OtherBody(BasicProperty)) == {}
  {
    DeclaredTag(BasicProperty, OtherBody(BasicProperty), Property);
  }

  lemma AccessorPropertyTag()
    ensures Tag(AccessorProperty, OtherBody(AccessorProperty)) == {Property} && StringTags(OtherBody(AccessorProperty)) == {}
  {
    DeclaredTag(AccessorProperty, OtherBody(AccessorProperty), Property);
  }

  lemma LiteralTags(p: Name)
    requires GroupOf(p).LiteralExpressions?
    ensures Tag(p, LiteralBody(p)) == {TagOf(p)} && StringTags(LiteralBody(p)) == {}
  {
    match p
    case BooleanLiteral => BooleanLiteralTag();
    case NullLiteral => NullLiteralTag();
    case NumberLiteral => NumberLiteralTag();
    case RegExpLiteral => RegExpLiteralTag();
    case StringLiteral => StringLiteralTag();
  }

  lemma LeftHandSideTags(p: Name)
    requires GroupOf(p).LeftHandSideExpressions?
    ensures Tag(p, LeftHandSideBody(p)) == {TagOf(p)} && StringTags(LeftHandSideBody(p)) == {}
  {
    match p
    case BasicMemberExpression => BasicMemberExpressionTag();
    case ComputedMemberExpression => ComputedMemberExpressionTag();
    case CallExpression | ConditionalExpression | NewExpression =>
  }

  lemma OtherTags(p: Name)
    requires GroupOf(p).Others?
    ensures Tag(p, OtherBody(p)) == {TagOf(p)} && StringTags(OtherBody(p)) == {}
  {
    match p
    case BasicProperty => BasicPropertyTag();
    case AccessorProperty => AccessorPropertyTag();
    case CatchClause | SwitchCase | VariableDeclarator =>
  }

  /** Every ES5 kind carries one tag: the one `TagOf` names. */
  lemma Es5Tag(p: Name)
    requires p in ES5.nodes
    ensures Tag(p, ES5.nodes[p]) == {TagOf(p)} && StringTags(ES5.nodes[p]) == {}
  {
    match GroupOf(p)
    case LiteralExpressions => LiteralTags(p);
    case LeftHandSideExpressions => LeftHandSideTags(p);
    case Others => OtherTags(p);
    case RootAndBlocks => RootAndBlockTags(p);
    case ControlTransfers => ControlTags(p);
    case Loops => LoopTags(p);
    case CompoundStatements => CompoundTags(p);
    case OperatorExpressions => OperatorTags(p);
    case PrimaryExpressions => PrimaryTags(p);
  }

  lemma BasicMemberDefined()
    ensures BasicMemberExpression in ES5.nodes
  {
  }

  lemma ComputedMemberDefined()
    ensures ComputedMemberExpression in ES5.nodes
  {
  }

  /** The tag name `MemberExpression` is not itself an ES5 kind. */
  lemma MemberTagUndefined()
    ensures MemberExpression !in ES5.nodes
  {
  }

  /** `ExtractNode<"MemberExpression">` selects the two member expression kinds. */
  lemma MemberExpressionSelects()
    ensures ExtractNode(ES5, Kind(MemberExpression)) == {BasicMemberExpression, ComputedMemberExpression}
  {
    BasicMemberDefined();
    ComputedMemberDefined();
    MemberTagUndefined();
    forall k ensures k in ExtractNode(ES5, Kind(MemberExpression)) <==> k.BasicMemberExpression? || k.ComputedMemberExpression? {
      if k in ES5.nodes {
        Es5Tag(k);
      }
      ExtractNodeByTag(ES5, k, MemberExpression, TagOf(k));
      TagOfMemberExpression(k);
    }
  }

  lemma BooleanLiteralDefined()
    ensures BooleanLiteral in ES5.nodes
  {
  }

  lemma NullLiteralDefined()
    ensures NullLiteral in ES5.nodes
  {
  }

  lemma NumberLiteralDefined()
    ensures NumberLiteral in ES5.nodes
  {
  }

  lemma RegExpLiteralDefined()
    ensures RegExpLiteral in ES5.nodes
  {
  }

  lemma StringLiteralDefined()
    ensures StringLiteral in ES5.nodes
  {
  }

  /** The tag name `Literal` is not itself an ES5 kind. */
  lemma LiteralTagUndefined()
    ensures Literal !in ES5.nodes
  {
  }

  /** `ExtractNode<"Literal">` selects the five literal kinds. */
  lemma LiteralSelects()
    ensures ExtractNode(ES5, Kind(Literal)) ==
      {BooleanLiteral, NullLiteral, NumberLiteral, RegExpLiteral, StringLiteral}
  {
    BooleanLiteralDefined();
    NullLiteralDefined();
    NumberLiteralDefined();
    RegExpLiteralDefined();
    StringLiteralDefined();
    LiteralTagUndefined();
    forall k ensures k in ExtractNode(ES5, Kind(Literal)) <==>
      k.BooleanLiteral? || k.NullLiteral? || k.NumberLiteral? || k.RegExpLiteral? || k.StringLiteral?
    {
      if k in ES5.nodes {
        Es5Tag(k);
      }
      ExtractNodeByTag(ES5, k, Literal, TagOf(k));
      TagOfLiteral(k);
    }
  }

  /** A kind that `ExtractNode<"Property">` selects is one of the two property kinds. */
  lemma PropertyExtracted(k: Name)
    requires k in ExtractNode(ES5, Kind(Property))
    ensures k.BasicProperty? || k.AccessorProperty?
  {
    Es5Tag(k);
    ExtractNodeByTag(ES5, k, Property, TagOf(k));
    TagOfProperty(k);
  }

  lemma BasicPropertyExtracted()
    ensures BasicProperty in ExtractNode(ES5, Kind(Property))
  {
    Es5Tag(BasicProperty);
  }

  lemma AccessorPropertyExtracted()
    ensures AccessorProperty in ExtractNode(ES5, Kind(Property))
  {
    Es5Tag(AccessorProperty);
  }

  lemma PropertiesWithin()
    ensures ExtractNode(ES5, Kind(Property)) <= {BasicProperty, AccessorProperty}
  {
    forall k | k in ExtractNode(ES5, Kind(Property)) ensures k in {BasicProperty, AccessorProperty} {
      PropertyExtracted(k);
    }
  }

  /** `ExtractNode<"Property">` selects the two property kinds. */
  lemma PropertySelects()
    ensures ExtractNode(ES5, Kind(Property)) == {BasicProperty, AccessorProperty}
  {
    BasicPropertyExtracted();
    AccessorPropertyExtracted();
    PropertiesWithin();
  }

  //----------------------------------------------------------------------------
  // The fields that tell the kinds of one tag apart
  //----------------------------------------------------------------------------

  lemma BasicMemberFields()
    ensures BasicMemberExpression in ES5.nodes
    ensures "computed" in ES5.nodes[BasicMemberExpression] && "property" in ES5.nodes[BasicMemberExpression]
    ensures ES5.nodes[BasicMemberExpression]["computed"] == Flag(false)
    ensures ES5.nodes[BasicMemberExpression]["property"] == {NodeRef(Identifier)}
  {
  }

  lemma ComputedMemberFields()
    ensures ComputedMemberExpression in ES5.nodes
    ensures "computed" in ES5.nodes[ComputedMemberExpression] && "property" in ES5.nodes[ComputedMemberExpression]
    ensures ES5.nodes[ComputedMemberExpression]["computed"] == Flag(true)
    ensures ES5.nodes[ComputedMemberExpression]["property"] == {ExpressionRef}
  {
  }

  /**
   * The two kinds tagged `"MemberExpression"` are told apart by `computed`:
   * it is `true` exactly for the computed one, whose `property` is any
   * expression, while the other's `property` is an `Identifier`.
   */
  lemma MemberExpressionsByComputed()
    ensures ExtractNode(ES5, Kind(MemberExpression)) == {BasicMemberExpression, ComputedMemberExpression}
    ensures "computed" in ES5.nodes[BasicMemberExpression] && "computed" in ES5.nodes[ComputedMemberExpression]
    ensures ES5.nodes[BasicMemberExpression]["computed"] == Flag(false)
    ensures ES5.nodes[ComputedMemberExpression]["computed"] == Flag(true)
    ensures "property" in ES5.nodes[BasicMemberExpression] && "property" in ES5.nodes[ComputedMemberExpression]
    ensures ES5.nodes[BasicMemberExpression]["property"] == {NodeRef(Identifier)}
    ensures ES5.nodes[ComputedMemberExpression]["property"] == {ExpressionRef}
  {
    MemberExpressionSelects();
    BasicMemberFields();
    ComputedMemberFields();
  }

  lemma BooleanLiteralRegex()
    ensures BooleanLiteral in ES5.nodes && "regex" in ES5.nodes[BooleanLiteral]
    ensures ES5.nodes[BooleanLiteral]["regex"] == {Plain(Undefined)}
  {
  }

  lemma NullLiteralRegex()
    ensures NullLiteral in ES5.nodes && "regex" in ES5.nodes[NullLiteral]
    ensures ES5.nodes[NullLiteral]["regex"] == {Plain(Undefined)}
  {
  }

  lemma NumberLiteralRegex()
    ensures NumberLiteral in ES5.nodes && "regex" in ES5.nodes[NumberLiteral]
    ensures ES5.nodes[NumberLiteral]["regex"] == {Plain(Undefined)}
  {
  }

  lemma StringLiteralRegex()
    ensures StringLiteral in ES5.nodes && "regex" in ES5.nodes[StringLiteral]
    ensures ES5.nodes[StringLiteral]["regex"] == {Plain(Undefined)}
  {
  }

  lemma RegExpLiteralRegex()
    ensures RegExpLiteral in ES5.nodes && "regex" in ES5.nodes[RegExpLiteral]
    ensures ES5.nodes[RegExpLiteral]["regex"] == Prim("{ pattern: string; flags: string }")
  {
  }

  /** Every kind tagged `"Literal"` has a `regex` field, and only `RegExpLiteral`'s is not `undefined`. */
  lemma OnlyRegExpLiteralHasRegex()
    ensures ExtractNode(ES5, Kind(Literal)) ==
      {BooleanLiteral, NullLiteral, NumberLiteral, RegExpLiteral, StringLiteral}
    ensures forall k | k in {BooleanLiteral, NullLiteral, NumberLiteral, StringLiteral} ::
      k in ES5.nodes && "regex" in ES5.nodes[k] && ES5.nodes[k]["regex"] == {Plain(Undefined)}
    ensures "regex" in ES5.nodes[RegExpLiteral] && Plain(Undefined) !in ES5.nodes[RegExpLiteral]["regex"]
  {
    LiteralSelects();
    BooleanLiteralRegex();
    NullLiteralRegex();
    NumberLiteralRegex();
    StringLiteralRegex();
    RegExpLiteralRegex();
  }

  lemma BasicPropertyFields()
    ensures BasicProperty in ES5.nodes
    ensures "kind" in ES5.nodes[BasicProperty] && "value" in ES5.nodes[BasicProperty]
    ensures ES5.nodes[BasicProperty]["kind"] == {Lit("init")}
    ensures ES5.nodes[BasicProperty]["value"] == {ExpressionRef}
  {
  }

  lemma AccessorPropertyFields()
    ensures AccessorProperty in ES5.nodes
    ensures "kind" in ES5.nodes[AccessorProperty] && "value" in ES5.nodes[AccessorProperty]
    ensures ES5.nodes[AccessorProperty]["kind"] == {Lit("get"), Lit("set")}
    ensures ES5.nodes[AccessorProperty]["value"] == {NodeRef(FunctionExpression)}
  {
  }

  /** The value of an expression-valued field admits exactly the ES5 expressions. */
  lemma ExpressionValueAdmits()
    ensures NormalizedUnion(ES5, Refs({ExpressionRef})) == ES5.expressionType
  {
    RefsOfPlainRefs({ExpressionRef}, {AnyExpression});
    ExpressionsDefined();
  }

  lemma FunctionExpressionDefined()
    ensures FunctionExpression in ES5.nodes
  {
  }

  /** A field that holds `NodeRef<"FunctionExpression">` admits that kind alone. */
  lemma FunctionValueAdmits()
    ensures NormalizedUnion(ES5, Refs({NodeRef(FunctionExpression)})) == {FunctionExpression}
  {
    FunctionExpressionDefined();
    RefsOfPlainRefs({NodeRef(FunctionExpression)}, {Kind(FunctionExpression)});
  }

  /**
   * The two kinds tagged `"Property"` are told apart by `kind`: `"init"` for
   * a plain property, whose value is any expression, and `"get"` or `"set"`
   * for an accessor, whose value is a `FunctionExpression`.
   */
  lemma PropertiesByKind()
    ensures ExtractNode(ES5, Kind(Property)) == {BasicProperty, AccessorProperty}
    ensures "kind" in ES5.nodes[BasicProperty] && "kind" in ES5.nodes[AccessorProperty]
    ensures ES5.nodes[BasicProperty]["kind"] == {Lit("init")}
    ensures ES5.nodes[AccessorProperty]["kind"] == {Lit("get"), Lit("set")}
    ensures "value" in ES5.nodes[BasicProperty] && "value" in ES5.nodes[AccessorProperty]
    ensures NormalizedUnion(ES5, Refs(ES5.nodes[BasicProperty]["value"])) == ES5.expressionType
    ensures NormalizedUnion(ES5, Refs(ES5.nodes[AccessorProperty]["value"])) == {FunctionExpression}
  {
    PropertySelects();
    BasicPropertyFields();
    ExpressionValueAdmits();
    AccessorPropertyFields();
    FunctionValueAdmits();
  }

  //----------------------------------------------------------------------------
  // Assignment targets
  //----------------------------------------------------------------------------

  lemma IdentifierDefined()
    ensures Identifier in ES5.nodes
  {
  }

  lemma VariableDeclarationDefined()
    ensures VariableDeclaration in ES5.nodes
  {
  }

  /** A simple assignment target admits exactly `Identifier` and the two member expression kinds. */
  lemma SimpleTargetAdmits()
    ensures NormalizedUnion(ES5, Refs(SimpleTarget)) ==
      {Identifier, BasicMemberExpression, ComputedMemberExpression}
  {
    var names := {Kind(Identifier), Kind(BasicMemberExpression), Kind(ComputedMemberExpression)};
    RefsOfPlainRefs(SimpleTarget, names);
    IdentifierDefined();
    BasicMemberDefined();
    ComputedMemberDefined();
  }

  lemma AssignmentLeftIs()
    ensures AssignmentExpression in ES5.nodes && "left" in ES5.nodes[AssignmentExpression]
    ensures ES5.nodes[AssignmentExpression]["left"] == SimpleTarget
  {
  }

  lemma UpdateArgumentIs()
    ensures UpdateExpression in ES5.nodes && "argument" in ES5.nodes[UpdateExpression]
    ensures ES5.nodes[UpdateExpression]["argument"] == SimpleTarget
  {
  }

  lemma ForInLeftIs()
    ensures ForInStatement in ES5.nodes && "left" in ES5.nodes[ForInStatement]
    ensures ES5.nodes[ForInStatement]["left"] == SimpleTarget + {NodeRef(VariableDeclaration)}
  {
  }

  /**
   * `AssignmentExpression.left` and `UpdateExpression.argument` admit only
   * `Identifier`, `BasicMemberExpression` and `ComputedMemberExpression`.
   */
  lemma AssignmentTargets()
    ensures AssignmentExpression in ES5.nodes && "left" in ES5.nodes[AssignmentExpression]
    ensures NormalizedUnion(ES5, Refs(ES5.nodes[AssignmentExpression]["left"])) ==
      {Identifier, BasicMemberExpression, ComputedMemberExpression}
    ensures UpdateExpression in ES5.nodes && "argument" in ES5.nodes[UpdateExpression]
    ensures NormalizedUnion(ES5, Refs(ES5.nodes[UpdateExpression]["argument"])) ==
      {Identifier, BasicMemberExpression, ComputedMemberExpression}
  {
    AssignmentLeftIs();
    UpdateArgumentIs();
    SimpleTargetAdmits();
  }

  /** A simple target or a `VariableDeclaration` admits exactly those four kinds. */
  lemma ForInTargetAdmits()
    ensures NormalizedUnion(ES5, Refs(SimpleTarget + {NodeRef(VariableDeclaration)})) ==
      {Identifier, BasicMemberExpression, ComputedMemberExpression, VariableDeclaration}
  {
    var names := {Kind(Identifier), Kind(BasicMemberExpression), Kind(ComputedMemberExpression), Kind(VariableDeclaration)};
    RefsOfPlainRefs(SimpleTarget + {NodeRef(VariableDeclaration)}, names);
    IdentifierDefined();
    BasicMemberDefined();
    ComputedMemberDefined();
    VariableDeclarationDefined();
  }

  /** `ForInStatement.left` admits the simple targets and, besides them, a `VariableDeclaration`. */
  lemma ForInTargets()
    ensures ForInStatement in ES5.nodes && "left" in ES5.nodes[ForInStatement]
    ensures NormalizedUnion(ES5, Refs(ES5.nodes[ForInStatement]["left"])) ==
      {Identifier, BasicMemberExpression, ComputedMemberExpression, VariableDeclaration}
  {
    ForInLeftIs();
    ForInTargetAdmits();
  }
}
