/**
 * The eleven layers of lib/types/ast-es2015.d.ts folded onto an arbitrary
 * base definition `d`.  Every fact here holds for any base that meets the
 * stated requirements; the ES2015 definition is the case `d == ES5`.
 *
 * The chunked fold `Extends(d, Layers)` agrees with the flat merge of the
 * base with the eleven contributions `LayerParts()`, so the facts about flat
 * merges carry over to it.
 */
module Es2015Fold {
  import opened Definer
  import opened Grammar
  import opened MergeLaws
  import opened FlatMerge
  import opened Es2015
  import opened Es2015Refs

  /** The chunked fold agrees with merging the base and all eleven contributions at once. */
  lemma FoldAgrees(d: Definition<Name>)
    ensures Agree(Extends(d, Layers), Combine([d] + LayerParts()))
  {
    ContributionsOfLayers();
    ExtendsByAgreesWithFlat(d, Layers, 4);
  }

  //----------------------------------------------------------------------------
  // Statement and expression kinds
  //----------------------------------------------------------------------------

  /** The statement kinds that the layers add. */
  const NewStatements: set<Name> := {ClassDeclaration, ForOfStatement}

  /** The expression kinds that the layers add. */
  const NewExpressions: set<Name> := {
    ArrowFunctionExpression, ClassExpression, MetaProperty, YieldExpression,
    TaggedTemplateExpression, TemplateLiteral}

  lemma LayerStatementsAre(i: int)
    requires 0 <= i < 11
    ensures LayerPart(i).statementType ==
      if i == 1 then {ClassDeclaration} else if i == 4 then {ForOfStatement} else {}
  {
  }

  lemma LayerExpressionsAre(i: int)
    requires 0 <= i < 11
    ensures LayerPart(i).expressionType ==
      if i == 0 then {ArrowFunctionExpression}
      else if i == 1 then {ClassExpression, MetaProperty}
      else if i == 4 then {YieldExpression}
      else if i == 10 then {TaggedTemplateExpression, TemplateLiteral}
      else {}
  {
  }

  lemma LayerStatements()
    ensures StatementsOf(LayerParts()) == NewStatements
  {
    forall s | s in StatementsOf(LayerParts()) ensures s in NewStatements {
      var i :| 0 <= i < 11 && s in LayerParts()[i].statementType;
      LayerStatementsAre(i);
    }
    LayerStatementsAre(1);
    LayerStatementsAre(4);
    assert ClassDeclaration in LayerParts()[1].statementType;
    assert ForOfStatement in LayerParts()[4].statementType;
  }

  lemma LayerExpressions()
    ensures ExpressionsOf(LayerParts()) == NewExpressions
  {
    forall s | s in ExpressionsOf(LayerParts()) ensures s in NewExpressions {
      var i :| 0 <= i < 11 && s in LayerParts()[i].expressionType;
      LayerExpressionsAre(i);
    }
    LayerExpressionsAre(0);
    LayerExpressionsAre(1);
    LayerExpressionsAre(4);
    LayerExpressionsAre(10);
    assert ArrowFunctionExpression in LayerParts()[0].expressionType;
    assert ClassExpression in LayerParts()[1].expressionType && MetaProperty in LayerParts()[1].expressionType;
    assert YieldExpression in LayerParts()[4].expressionType;
    assert TaggedTemplateExpression in LayerParts()[10].expressionType;
    assert TemplateLiteral in LayerParts()[10].expressionType;
  }

  /**
   * `statementType` and `expressionType` of the fold: the base's kinds plus
   * the kinds that the layers declare, nothing dropped.
   */
  lemma FoldKindSets(d: Definition<Name>)
    ensures Extends(d, Layers).statementType == d.statementType + NewStatements
    ensures Extends(d, Layers).expressionType == d.expressionType + NewExpressions
  {
    FoldAgrees(d);
    CombineSets([d] + LayerParts());
    CollectSplit([d], LayerParts());
    CollectOne(d);
    LayerStatements();
    LayerExpressions();
  }

  //----------------------------------------------------------------------------
  // Kinds and references
  //----------------------------------------------------------------------------

  /** The kinds of the fold are the base's kinds and the kinds that some layer contributes to. */
  lemma FoldKinds(d: Definition<Name>, k: Name)
    ensures k in Extends(d, Layers).nodes <==>
      k in d.nodes || exists i :: 0 <= i < 11 && k in LayerParts()[i].nodes
  {
    var parts := [d] + LayerParts();
    FoldAgrees(d);
    CombineSets(parts);
    CollectSplit([d], LayerParts());
    CollectOne(d);
  }

  /** What the contributions refer to is listed, layer by layer, in `ReferencedByLayers`; never `Node`. */
  lemma LayersReferWithin()
    ensures ReferencesWithin(LayerParts(), ReferencedByLayers())
    ensures forall i :: 0 <= i < |ReferencedByLayers()| ==> AnyNode !in ReferencedByLayers()[i]
  {
    forall i, p, n | 0 <= i < 11 && p in LayerParts()[i].nodes && Mentions(LayerParts()[i].nodes[p], n)
      ensures n in ReferencedByLayers()[i]
    {
      LayerMentions(i, p, n);
    }
  }

  /**
   * The parents, after the fold, of a kind that the base never names and
   * that, of all layers, only layer `j` names, at the kinds `qs`: exactly
   * `qs`, provided the kind is neither a statement nor an expression and
   * nothing refers to `Node`.
   */
  lemma FoldParents(d: Definition<Name>, k: Name, j: int, qs: set<Name>)
    requires 0 <= j < 11
    requires k in Extends(d, Layers).nodes
    requires k !in Extends(d, Layers).statementType && k !in Extends(d, Layers).expressionType
    requires forall p :: p in d.nodes ==> !Mentions(d.nodes[p], AnyNode) && !Mentions(d.nodes[p], Kind(k))
    requires forall i :: 0 <= i < 11 && i != j ==> Kind(k) !in ReferencedByLayers()[i]
    requires forall p :: p in LayerParts()[j].nodes && Mentions(LayerParts()[j].nodes[p], Kind(k)) ==> p in qs
    requires forall q :: q in qs ==> q in LayerParts()[j].nodes && Mentions(LayerParts()[j].nodes[q], Kind(k))
    ensures ParentType(Extends(d, Layers), k) == qs
  {
    var flat := Combine([d] + LayerParts());
    FoldAgrees(d);
    AgreeSameRelations(Extends(d, Layers), flat, k);
    LayersReferWithin();
    FlatParents(d, LayerParts(), ReferencedByLayers(), k, j, qs);
  }

  /**
   * A kind that neither the base nor any layer names, and that is neither a
   * statement nor an expression, is a root of the fold: it has no parents.
   */
  lemma FoldRoot(d: Definition<Name>, k: Name)
    requires k in Extends(d, Layers).nodes
    requires k !in Extends(d, Layers).statementType && k !in Extends(d, Layers).expressionType
    requires forall p :: p in d.nodes ==> !Mentions(d.nodes[p], AnyNode) && !Mentions(d.nodes[p], Kind(k))
    requires forall i :: 0 <= i < 11 ==> Kind(k) !in ReferencedByLayers()[i]
    ensures ParentType(Extends(d, Layers), k) == {}
  {
    var flat := Combine([d] + LayerParts());
    FoldAgrees(d);
    AgreeSameRelations(Extends(d, Layers), flat, k);
    LayersReferWithin();
    FlatRoot(d, LayerParts(), ReferencedByLayers(), k);
  }

  //----------------------------------------------------------------------------
  // Fields
  //----------------------------------------------------------------------------

  /** A field that every giver states without arrays is, after the fold, the union of what they give. */
  lemma FoldPlainField(d: Definition<Name>, k: Name, f: string)
    requires PlainField([d] + LayerParts(), k, f)
    ensures k in Extends(d, Layers).nodes && f in Extends(d, Layers).nodes[k]
    ensures Extends(d, Layers).nodes[k][f] == FieldUnion([d] + LayerParts(), k, f)
  {
    ContributionsOfLayers();
    UniformFieldExact(d, Layers, 4, k, f);
    PlainFieldMerged([d] + LayerParts(), k, f);
  }

  /** A field that every giver states as arrays is, after the fold, one array of all their elements. */
  lemma FoldListField(d: Definition<Name>, k: Name, f: string)
    requires ListField([d] + LayerParts(), k, f)
    ensures k in Extends(d, Layers).nodes && f in Extends(d, Layers).nodes[k]
    ensures Extends(d, Layers).nodes[k][f] == {ArrayOf(ArrayElements(FieldUnion([d] + LayerParts(), k, f)))}
  {
    ContributionsOfLayers();
    UniformFieldExact(d, Layers, 4, k, f);
    ListFieldMerged([d] + LayerParts(), k, f);
  }

  /**
   * A field that, of all layers, only layer `j` gives, as a non-empty union
   * without arrays, and that the base gives likewise or not at all: after
   * the fold it is what the base gives united with what layer `j` gives.
   */
  lemma FoldPlainFromLayer(d: Definition<Name>, j: int, k: Name, f: string)
    requires 0 <= j < 11 && Gives(LayerParts(), j, k, f)
    requires forall i :: 0 <= i < 11 && i != j ==> !Gives(LayerParts(), i, k, f)
    requires LayerParts()[j].nodes[k][f] != {} && NoArrays(LayerParts()[j].nodes[k][f])
    requires k in d.nodes && f in d.nodes[k] ==> d.nodes[k][f] != {} && NoArrays(d.nodes[k][f])
    ensures k in Extends(d, Layers).nodes && f in Extends(d, Layers).nodes[k]
    ensures Extends(d, Layers).nodes[k][f] == BaseField(d, k, f) + LayerParts()[j].nodes[k][f]
  {
    OnePartPlain(d, LayerParts(), j, k, f);
    FoldPlainField(d, k, f);
  }

  /**
   * A field that, of all layers, only layer `j` gives, as arrays only, and
   * that the base gives as arrays only or not at all: after the fold it is
   * one array of the elements of both.
   */
  lemma FoldListFromLayer(d: Definition<Name>, j: int, k: Name, f: string)
    requires 0 <= j < 11 && Gives(LayerParts(), j, k, f)
    requires forall i :: 0 <= i < 11 && i != j ==> !Gives(LayerParts(), i, k, f)
    requires AllArrays(LayerParts()[j].nodes[k][f]) && AllArrays(BaseField(d, k, f))
    ensures k in Extends(d, Layers).nodes && f in Extends(d, Layers).nodes[k]
    ensures Extends(d, Layers).nodes[k][f] ==
      {ArrayOf(ArrayElements(BaseField(d, k, f)) + ArrayElements(LayerParts()[j].nodes[k][f]))}
  {
    OnePartList(d, LayerParts(), j, k, f);
    FoldListField(d, k, f);
    ContentsOfUnion(BaseField(d, k, f), LayerParts()[j].nodes[k][f]);
  }

  /** A field that neither the base nor any layer gives is not in the fold. */
  lemma FoldFieldAbsent(d: Definition<Name>, k: Name, f: string)
    requires !(k in d.nodes && f in d.nodes[k])
    requires forall i :: 0 <= i < 11 ==> !Gives(LayerParts(), i, k, f)
    ensures !(k in Extends(d, Layers).nodes && f in Extends(d, Layers).nodes[k])
  {
    FoldAgrees(d);
    FieldFromNoPart(d, LayerParts(), k, f);
  }
}
