/**
 * The sizes of the kind sets and of the operator unions of
 * lib/types/ast-es5.d.ts.  Each set is split into small groups, and the
 * size of a union of disjoint groups is the sum of their sizes.
 */
module Es5Counts {
  import opened Definer
  import opened Grammar
  import opened Es5

  /** The size of a union of two disjoint sets is the sum of their sizes. */
  lemma DisjointUnion<T>(a: set<T>, b: set<T>)
    requires a !! b
    ensures |a + b| == |a| + |b|
  {
    assert (a + b) - a == b;
  }

  /** The union of string literal types drawn from `ops` has one member per string. */
  lemma {:induction false} LiteralsCount(ops: set<string>)
    ensures |Literals(ops)| == |ops|
    decreases |ops|
  {
    if ops != {} {
      var s :| s in ops;
      var rest := ops - {s};
      LiteralsCount(rest);
      assert Literals(ops) == Literals(rest) + {Lit(s)};
      assert Lit(s) !in Literals(rest);
      DisjointUnion(Literals(rest), {Lit(s)});
      DisjointUnion(rest, {s});
      assert ops == rest + {s};
    }
  }

  //----------------------------------------------------------------------------
  // Statements and expressions
  //----------------------------------------------------------------------------

  const SimpleStatementKinds: set<Name> :=
    {BlockStatement, DebuggerStatement, EmptyStatement, ExpressionStatement, VariableDeclaration}
  const ControlTransferKinds: set<Name> :=
    {BreakStatement, ContinueStatement, IfStatement, LabeledStatement, ReturnStatement, ThrowStatement}
  const LoopKinds: set<Name> := {DoWhileStatement, ForInStatement, ForStatement, WhileStatement}
  const CompoundStatementKinds: set<Name> := {FunctionDeclaration, SwitchStatement, TryStatement, WithStatement}

  lemma StatementsByGroup()
    ensures Statements == SimpleStatementKinds + ControlTransferKinds + LoopKinds + CompoundStatementKinds
  {
    assert SimpleStatementKinds + ControlTransferKinds + LoopKinds + CompoundStatementKinds <= Statements;
    assert Statements <= SimpleStatementKinds + ControlTransferKinds + LoopKinds + CompoundStatementKinds;
  }

  lemma StatementGroupSizes()
    ensures |SimpleStatementKinds| == 5 && |ControlTransferKinds| == 6
    ensures |LoopKinds| == 4 && |CompoundStatementKinds| == 4
  {
  }

  lemma StatementGroupsDisjoint()
    ensures SimpleStatementKinds !! ControlTransferKinds
    ensures SimpleStatementKinds + ControlTransferKinds !! LoopKinds
  {
  }

  lemma CompoundStatementsApart()
    ensures SimpleStatementKinds + ControlTransferKinds + LoopKinds !! CompoundStatementKinds
  {
  }

  /** `statementType` names nineteen kinds. */
  lemma StatementCount()
    ensures |ES5.statementType| == 19
  {
    StatementsByGroup();
    StatementGroupSizes();
    StatementGroupsDisjoint();
    CompoundStatementsApart();
    DisjointUnion(SimpleStatementKinds, ControlTransferKinds);
    DisjointUnion(SimpleStatementKinds + ControlTransferKinds, LoopKinds);
    DisjointUnion(SimpleStatementKinds + ControlTransferKinds + LoopKinds, CompoundStatementKinds);
  }

  const OperatorExpressionKinds: set<Name> :=
    {AssignmentExpression, BinaryExpression, LogicalExpression, UnaryExpression, UpdateExpression}
  const LiteralKinds: set<Name> := {BooleanLiteral, NullLiteral, NumberLiteral, RegExpLiteral, StringLiteral}
  const PrimaryExpressionKinds: set<Name> :=
    {ArrayExpression, FunctionExpression, Identifier, ObjectExpression, SequenceExpression, ThisExpression}
  const LeftHandSideExpressionKinds: set<Name> :=
    {CallExpression, ConditionalExpression, BasicMemberExpression, ComputedMemberExpression, NewExpression}

  lemma ExpressionsByGroup()
    ensures Expressions == OperatorExpressionKinds + LiteralKinds + PrimaryExpressionKinds + LeftHandSideExpressionKinds
  {
    assert OperatorExpressionKinds + LiteralKinds + PrimaryExpressionKinds + LeftHandSideExpressionKinds <= Expressions;
    assert Expressions <= OperatorExpressionKinds + LiteralKinds + PrimaryExpressionKinds + LeftHandSideExpressionKinds;
  }

  lemma ExpressionGroupSizes()
    ensures |OperatorExpressionKinds| == 5 && |LiteralKinds| == 5
    ensures |PrimaryExpressionKinds| == 6 && |LeftHandSideExpressionKinds| == 5
  {
  }

  lemma ExpressionGroupsDisjoint()
    ensures OperatorExpressionKinds !! LiteralKinds
    ensures OperatorExpressionKinds + LiteralKinds !! PrimaryExpressionKinds
  {
  }

  lemma LeftHandSideExpressionsApart()
    ensures OperatorExpressionKinds + LiteralKinds + PrimaryExpressionKinds !! LeftHandSideExpressionKinds
  {
  }

  /** `expressionType` names twenty-one kinds. */
  lemma ExpressionCount()
    ensures |ES5.expressionType| == 21
  {
    ExpressionsByGroup();
    ExpressionGroupSizes();
    ExpressionGroupsDisjoint();
    LeftHandSideExpressionsApart();
    DisjointUnion(OperatorExpressionKinds, LiteralKinds);
    DisjointUnion(OperatorExpressionKinds + LiteralKinds, PrimaryExpressionKinds);
    DisjointUnion(OperatorExpressionKinds + LiteralKinds + PrimaryExpressionKinds, LeftHandSideExpressionKinds);
  }

  //----------------------------------------------------------------------------
  // Operators, grouped line by line as declared
  //----------------------------------------------------------------------------

  const ArithmeticAssignments: set<string> := {"=", "+=", "-=", "*=", "/=", "%="}
  const BitwiseAssignments: set<string> := {"<<=", ">>=", ">>>=", "|=", "^=", "&="}

  lemma AssignmentLineSizes()
    ensures |ArithmeticAssignments| == 6 && |BitwiseAssignments| == 6
  {
  }

  /** Twelve assignment operators (ECMA-262 5.1 section 11.13). */
  lemma AssignmentOperatorCount()
    ensures |AssignmentOperators| == 12
  {
    assert AssignmentOperators == ArithmeticAssignments + BitwiseAssignments;
    AssignmentLineSizes();
    DisjointUnion(ArithmeticAssignments, BitwiseAssignments);
  }

  const ComparisonOperators: set<string> := {"==", "!=", "===", "!==", "<", "<=", ">", ">="}
  const ShiftAndBitwiseOperators: set<string> := {"<<", ">>", ">>>", "|", "^", "&"}
  const ArithmeticOperators: set<string> := {"+", "-", "*", "/", "%"}
  const KeywordOperators: set<string> := {"in", "instanceof"}

  lemma BinaryOperatorsByLine()
    ensures BinaryOperators == ComparisonOperators + ShiftAndBitwiseOperators + ArithmeticOperators + KeywordOperators
  {
    assert ComparisonOperators + ShiftAndBitwiseOperators + ArithmeticOperators + KeywordOperators <= BinaryOperators;
    assert BinaryOperators <= ComparisonOperators + ShiftAndBitwiseOperators + ArithmeticOperators + KeywordOperators;
  }

  lemma BinaryLineSizes()
    ensures |ComparisonOperators| == 8 && |ShiftAndBitwiseOperators| == 6
    ensures |ArithmeticOperators| == 5 && |KeywordOperators| == 2
  {
  }

  lemma BinaryLinesDisjoint()
    ensures ComparisonOperators !! ShiftAndBitwiseOperators
    ensures ComparisonOperators + ShiftAndBitwiseOperators !! ArithmeticOperators
    ensures ComparisonOperators + ShiftAndBitwiseOperators + ArithmeticOperators !! KeywordOperators
  {
  }

  /** Twenty-one binary operators (ECMA-262 5.1 sections 11.5 to 11.10), `in` and `instanceof` among them. */
  lemma BinaryOperatorCount()
    ensures |BinaryOperators| == 21
    ensures "in" in BinaryOperators && "instanceof" in BinaryOperators
  {
    BinaryOperatorsByLine();
    BinaryLineSizes();
    BinaryLinesDisjoint();
    DisjointUnion(ComparisonOperators, ShiftAndBitwiseOperators);
    DisjointUnion(ComparisonOperators + ShiftAndBitwiseOperators, ArithmeticOperators);
    DisjointUnion(ComparisonOperators + ShiftAndBitwiseOperators + ArithmeticOperators, KeywordOperators);
  }

  /** Two logical, seven unary and two update operators (ECMA-262 5.1 sections 11.11, 11.4 and 11.3). */
  lemma OtherOperatorCounts()
    ensures |LogicalOperators| == 2 && |UnaryOperators| == 7 && |UpdateOperators| == 2
  {
  }

  lemma BinaryOperatorFieldIs()
    ensures BinaryExpression in ES5.nodes && "operator" in ES5.nodes[BinaryExpression]
    ensures ES5.nodes[BinaryExpression]["operator"] == Literals(BinaryOperators)
  {
  }

  /** The `operator` field of `BinaryExpression` is a union of twenty-one string literal types. */
  lemma BinaryOperatorField()
    ensures BinaryExpression in ES5.nodes && "operator" in ES5.nodes[BinaryExpression]
    ensures |ES5.nodes[BinaryExpression]["operator"]| == 21
  {
    BinaryOperatorFieldIs();
    BinaryOperatorCount();
    LiteralsCount(BinaryOperators);
  }

  lemma AssignmentOperatorFieldIs()
    ensures AssignmentExpression in ES5.nodes && "operator" in ES5.nodes[AssignmentExpression]
    ensures ES5.nodes[AssignmentExpression]["operator"] == Literals(AssignmentOperators)
  {
  }

  /** The `operator` field of `AssignmentExpression` is a union of twelve string literal types. */
  lemma AssignmentOperatorField()
    ensures AssignmentExpression in ES5.nodes && "operator" in ES5.nodes[AssignmentExpression]
    ensures |ES5.nodes[AssignmentExpression]["operator"]| == 12
  {
    AssignmentOperatorFieldIs();
    AssignmentOperatorCount();
    LiteralsCount(AssignmentOperators);
  }
}
