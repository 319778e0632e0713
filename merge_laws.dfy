/**
 * Laws of the merge operators of lib/types/ast-definer.d.ts: `UniteArray`,
 * `MergeNodeProperties`/`MergeNodes` (here `Combine`) and the chunked fold
 * `ExtendsRec`/`Extends` (here `ExtendsBy`).
 */
module MergeLaws {
  import opened Definer
  import opened Relations

  //----------------------------------------------------------------------------
  // UniteArray
  //----------------------------------------------------------------------------

  /** Uniting the arrays of a union a second time changes nothing. */
  lemma UniteArrayIdempotent<N(!new)>(t: FieldType<N>)
    ensures UniteArray(UniteArray(t)) == UniteArray(t)
  {
  }

  //----------------------------------------------------------------------------
  // Combine: what one merge step produces
  //----------------------------------------------------------------------------

  /** Part `i` gives field `f` to kind `k`. */
  predicate Gives<N(!new)>(parts: seq<Definition<N>>, i: int, k: N, f: string)
  {
    0 <= i < |parts| && k in parts[i].nodes && f in parts[i].nodes[k]
  }

  /** Collecting kinds and kind sets over a concatenation of parts collects over each half. */
  lemma CollectSplit<N(!new)>(ps: seq<Definition<N>>, qs: seq<Definition<N>>)
    ensures KindsOf(ps + qs) == KindsOf(ps) + KindsOf(qs)
    ensures StatementsOf(ps + qs) == StatementsOf(ps) + StatementsOf(qs)
    ensures ExpressionsOf(ps + qs) == ExpressionsOf(ps) + ExpressionsOf(qs)
  {
    var rs := ps + qs;
    forall x | x in KindsOf(ps) ensures x in KindsOf(rs) {
      var i :| 0 <= i < |ps| && x in ps[i].nodes;
      assert rs[i] == ps[i];
    }
    forall x | x in KindsOf(qs) ensures x in KindsOf(rs) {
      var i :| 0 <= i < |qs| && x in qs[i].nodes;
      assert rs[|ps| + i] == qs[i];
    }
    forall x | x in KindsOf(rs) ensures x in KindsOf(ps) + KindsOf(qs) {
      var i :| 0 <= i < |rs| && x in rs[i].nodes;
      if i >= |ps| { assert rs[i] == qs[i - |ps|]; }
    }
    forall x | x in StatementsOf(ps) ensures x in StatementsOf(rs) {
      var i :| 0 <= i < |ps| && x in ps[i].statementType;
      assert rs[i] == ps[i];
    }
    forall x | x in StatementsOf(qs) ensures x in StatementsOf(rs) {
      var i :| 0 <= i < |qs| && x in qs[i].statementType;
      assert rs[|ps| + i] == qs[i];
    }
    forall x | x in StatementsOf(rs) ensures x in StatementsOf(ps) + StatementsOf(qs) {
      var i :| 0 <= i < |rs| && x in rs[i].statementType;
      if i >= |ps| { assert rs[i] == qs[i - |ps|]; }
    }
    forall x | x in ExpressionsOf(ps) ensures x in ExpressionsOf(rs) {
      var i :| 0 <= i < |ps| && x in ps[i].expressionType;
      assert rs[i] == ps[i];
    }
    forall x | x in ExpressionsOf(qs) ensures x in ExpressionsOf(rs) {
      var i :| 0 <= i < |qs| && x in qs[i].expressionType;
      assert rs[|ps| + i] == qs[i];
    }
    forall x | x in ExpressionsOf(rs) ensures x in ExpressionsOf(ps) + ExpressionsOf(qs) {
      var i :| 0 <= i < |rs| && x in rs[i].expressionType;
      if i >= |ps| { assert rs[i] == qs[i - |ps|]; }
    }
  }

  /** Collecting the fields of one kind over a concatenation of parts collects over each half. */
  lemma CollectFieldsSplit<N(!new)>(ps: seq<Definition<N>>, qs: seq<Definition<N>>, k: N, f: string)
    ensures FieldsOf(ps + qs, k) == FieldsOf(ps, k) + FieldsOf(qs, k)
    ensures FieldUnion(ps + qs, k, f) == FieldUnion(ps, k, f) + FieldUnion(qs, k, f)
  {
    var rs := ps + qs;
    forall x | x in FieldsOf(ps, k) ensures x in FieldsOf(rs, k) {
      var i :| 0 <= i < |ps| && k in ps[i].nodes && x in ps[i].nodes[k];
      assert rs[i] == ps[i];
    }
    forall x | x in FieldsOf(qs, k) ensures x in FieldsOf(rs, k) {
      var i :| 0 <= i < |qs| && k in qs[i].nodes && x in qs[i].nodes[k];
      assert rs[|ps| + i] == qs[i];
    }
    forall x | x in FieldsOf(rs, k) ensures x in FieldsOf(ps, k) + FieldsOf(qs, k) {
      var i :| 0 <= i < |rs| && k in rs[i].nodes && x in rs[i].nodes[k];
      if i >= |ps| { assert rs[i] == qs[i - |ps|]; }
    }
    forall x | x in FieldUnion(ps, k, f) ensures x in FieldUnion(rs, k, f) {
      var i :| 0 <= i < |ps| && k in ps[i].nodes && f in ps[i].nodes[k] && x in ps[i].nodes[k][f];
      assert rs[i] == ps[i];
    }
    forall x | x in FieldUnion(qs, k, f) ensures x in FieldUnion(rs, k, f) {
      var i :| 0 <= i < |qs| && k in qs[i].nodes && f in qs[i].nodes[k] && x in qs[i].nodes[k][f];
      assert rs[|ps| + i] == qs[i];
    }
    forall x | x in FieldUnion(rs, k, f) ensures x in FieldUnion(ps, k, f) + FieldUnion(qs, k, f) {
      var i :| 0 <= i < |rs| && k in rs[i].nodes && f in rs[i].nodes[k] && x in rs[i].nodes[k][f];
      if i >= |ps| { assert rs[i] == qs[i - |ps|]; }
    }
  }

  /** Collecting over a single part reads that part. */
  lemma CollectOne<N(!new)>(x: Definition<N>)
    ensures KindsOf([x]) == x.nodes.Keys
    ensures StatementsOf([x]) == x.statementType
    ensures ExpressionsOf([x]) == x.expressionType
  {
    assert [x][0] == x;
  }

  lemma CollectOneField<N(!new)>(x: Definition<N>, k: N, f: string)
    ensures FieldsOf([x], k) == if k in x.nodes then x.nodes[k].Keys else {}
    ensures FieldUnion([x], k, f) == if k in x.nodes && f in x.nodes[k] then x.nodes[k][f] else {}
  {
    assert [x][0] == x;
    if k in x.nodes && f in x.nodes[k] {
      assert Gives([x], 0, k, f);
    }
  }

  /** A merge holds something for a field only when some part gives that field. */
  lemma OnlyGivenFields<N(!new)>(ps: seq<Definition<N>>, k: N, f: string)
    ensures FieldsOf(ps, k) != {} ==> k in KindsOf(ps)
    ensures FieldUnion(ps, k, f) != {} ==> f in FieldsOf(ps, k)
  {
    if FieldsOf(ps, k) != {} {
      var g :| g in FieldsOf(ps, k);
      var i :| 0 <= i < |ps| && k in ps[i].nodes && g in ps[i].nodes[k];
    }
    if FieldUnion(ps, k, f) != {} {
      var m :| m in FieldUnion(ps, k, f);
      var i :| Gives(ps, i, k, f) && m in ps[i].nodes[k][f];
    }
  }

  /** `Plains` and `ArrayElements` distribute over union. */
  lemma ContentsOfUnion<N(!new)>(t: FieldType<N>, u: FieldType<N>)
    ensures Plains(t + u) == Plains(t) + Plains(u)
    ensures ArrayElements(t + u) == ArrayElements(t) + ArrayElements(u)
  {
    forall s | s in ArrayElements(t) ensures s in ArrayElements(t + u) {
      var m :| m in t && m.ArrayOf? && s in m.elements;
    }
    forall s | s in ArrayElements(u) ensures s in ArrayElements(t + u) {
      var m :| m in u && m.ArrayOf? && s in m.elements;
    }
  }

  /**
   * The kinds of a merge are the kinds of its parts, its fields are the fields
   * the parts give, and each merged field holds exactly the non-array members
   * and exactly the array elements of the contributions.
   */
  lemma CombineContents<N(!new)>(parts: seq<Definition<N>>, k: N, f: string)
    ensures k in Combine(parts).nodes ==> Combine(parts).nodes[k].Keys == FieldsOf(parts, k)
    ensures k in Combine(parts).nodes && f in Combine(parts).nodes[k] ==>
      && Plains(Combine(parts).nodes[k][f]) == Plains(FieldUnion(parts, k, f))
      && ArrayElements(Combine(parts).nodes[k][f]) == ArrayElements(FieldUnion(parts, k, f))
  {
  }

  lemma CombineSets<N(!new)>(parts: seq<Definition<N>>)
    ensures Combine(parts).nodes.Keys == KindsOf(parts)
    ensures Combine(parts).statementType == StatementsOf(parts)
    ensures Combine(parts).expressionType == ExpressionsOf(parts)
  {
  }

  /** A field is in a merge exactly when some part gives it. */
  lemma CombineField<N(!new)>(parts: seq<Definition<N>>, k: N, f: string)
    ensures (k in Combine(parts).nodes && f in Combine(parts).nodes[k]) <==> exists i :: Gives(parts, i, k, f)
  {
    if exists i :: Gives(parts, i, k, f) {
      var i :| Gives(parts, i, k, f);
      assert k in KindsOf(parts);
      assert f in FieldsOf(parts, k);
    }
    if k in Combine(parts).nodes && f in Combine(parts).nodes[k] {
      assert f in FieldsOf(parts, k);
      var i :| 0 <= i < |parts| && k in parts[i].nodes && f in parts[i].nodes[k];
      assert Gives(parts, i, k, f);
    }
  }

  /** The statement and expression kinds of a merge are those of its parts. */
  lemma CombineKindSets<N(!new)>(parts: seq<Definition<N>>, k: N)
    ensures k in Combine(parts).statementType <==> exists i :: 0 <= i < |parts| && k in parts[i].statementType
    ensures k in Combine(parts).expressionType <==> exists i :: 0 <= i < |parts| && k in parts[i].expressionType
  {
  }

  /**
   * When every contribution to a field is a non-empty union of arrays only,
   * the merged field is one array of all their elements.
   */
  lemma CombineFieldAllLists<N(!new)>(parts: seq<Definition<N>>, k: N, f: string)
    requires exists i :: Gives(parts, i, k, f)
    requires forall i :: Gives(parts, i, k, f) ==> AllArrays(parts[i].nodes[k][f])
    ensures k in Combine(parts).nodes && f in Combine(parts).nodes[k]
    ensures Combine(parts).nodes[k][f] == {ArrayOf(ArrayElements(FieldUnion(parts, k, f)))}
  {
    CombineField(parts, k, f);
    var u := FieldUnion(parts, k, f);
    assert AllArrays(u) by {
      forall m | m in u ensures m.ArrayOf? {
        var j :| Gives(parts, j, k, f) && m in parts[j].nodes[k][f];
      }
    }
  }

  /**
   * When no contribution to a field holds an array and one is non-empty, the
   * merged field is the plain union of the contributions.
   */
  lemma CombineFieldNoLists<N(!new)>(parts: seq<Definition<N>>, k: N, f: string)
    requires exists i :: Gives(parts, i, k, f) && parts[i].nodes[k][f] != {}
    requires forall i :: Gives(parts, i, k, f) ==> forall m :: m in parts[i].nodes[k][f] ==> m.Plain?
    ensures k in Combine(parts).nodes && f in Combine(parts).nodes[k]
    ensures Combine(parts).nodes[k][f] == FieldUnion(parts, k, f)
    ensures forall m :: m in Combine(parts).nodes[k][f] ==> m.Plain?
  {
    var i :| Gives(parts, i, k, f) && parts[i].nodes[k][f] != {};
    CombineField(parts, k, f);
    var u := FieldUnion(parts, k, f);
    var m :| m in parts[i].nodes[k][f];
    assert m in u && m.Plain?;
    forall m | m in u ensures m.Plain? {
      var j :| Gives(parts, j, k, f) && m in parts[j].nodes[k][f];
    }
  }

  //----------------------------------------------------------------------------
  // Agreement: same kinds, fields, members and kind sets, up to array grouping
  //----------------------------------------------------------------------------

  /**
   * Two definitions agree when they have the same kinds, the same field names,
   * the same non-array members and array elements in every field, and the same
   * statement and expression kinds.  They may still group array members
   * differently (`A[] | B[]` against `(A | B)[]`).
   */
  predicate Agree<N(!new)>(a: Definition<N>, b: Definition<N>)
  {
    && a.nodes.Keys == b.nodes.Keys
    && a.statementType == b.statementType
    && a.expressionType == b.expressionType
    && (forall k :: k in a.nodes ==> a.nodes[k].Keys == b.nodes[k].Keys)
    && (forall k, f :: k in a.nodes && f in a.nodes[k] ==>
          && Plains(a.nodes[k][f]) == Plains(b.nodes[k][f])
          && ArrayElements(a.nodes[k][f]) == ArrayElements(b.nodes[k][f]))
  }

  lemma AgreeTransitive<N(!new)>(a: Definition<N>, b: Definition<N>, c: Definition<N>)
    requires Agree(a, b) && Agree(b, c)
    ensures Agree(a, c)
  {
  }

  /** References live in non-array members and array elements, so agreeing fields mention the same names. */
  lemma AgreeingFieldsMention<N(!new)>(t: FieldType<N>, u: FieldType<N>, n: TypeName<N>)
    requires Plains(t) == Plains(u) && ArrayElements(t) == ArrayElements(u)
    ensures FieldMentions(t, n) <==> FieldMentions(u, n)
  {
    if FieldMentions(t, n) {
      MentionCarriedOver(t, u, n);
    }
    if FieldMentions(u, n) {
      MentionCarriedOver(u, t, n);
    }
  }

  lemma MentionCarriedOver<N(!new)>(t: FieldType<N>, u: FieldType<N>, n: TypeName<N>)
    requires Plains(t) == Plains(u) && ArrayElements(t) == ArrayElements(u)
    requires FieldMentions(t, n)
    ensures FieldMentions(u, n)
  {
    var m :| m in t && MemberMentions(m, n);
    if m.Plain? {
      assert Ref(n) in Plains(u);
      assert Plain(Ref(n)) in u && MemberMentions(Plain(Ref(n)), n);
    } else {
      assert Ref(n) in ArrayElements(u);
      var m': Member<N> :| m' in u && m'.ArrayOf? && Ref(n) in m'.elements;
      assert MemberMentions(m', n);
    }
  }

  /** Agreeing definitions have the same child relation, hence the same parents and `parent` property. */
  lemma AgreeSameRelations<N(!new)>(a: Definition<N>, b: Definition<N>, k: N)
    requires Agree(a, b)
    ensures ChildType(a, k) == ChildType(b, k)
    ensures ParentType(a, k) == ParentType(b, k)
    ensures ParentProperty(a, k) == ParentProperty(b, k)
  {
    forall p, n | p in a.nodes ensures Mentions(a.nodes[p], n) <==> Mentions(b.nodes[p], n) {
      if Mentions(a.nodes[p], n) {
        var f :| f in a.nodes[p] && FieldMentions(a.nodes[p][f], n);
        AgreeingFieldsMention(a.nodes[p][f], b.nodes[p][f], n);
      }
      if Mentions(b.nodes[p], n) {
        var f :| f in b.nodes[p] && FieldMentions(b.nodes[p][f], n);
        AgreeingFieldsMention(a.nodes[p][f], b.nodes[p][f], n);
      }
    }
    forall p, c ensures c in ChildType(a, p) <==> c in ChildType(b, p) {
      ChildTypeByMentions(a, p, c);
      ChildTypeByMentions(b, p, c);
    }
    assert ChildType(a, k) == ChildType(b, k);
    assert ParentType(a, k) == ParentType(b, k);
  }

  /** A merged kind refers to a name exactly when one of the parts' bodies for it does. */
  lemma CombineMentions<N(!new)>(parts: seq<Definition<N>>, p: N, n: TypeName<N>)
    requires p in Combine(parts).nodes
    ensures Mentions(Combine(parts).nodes[p], n) <==>
      exists i :: 0 <= i < |parts| && p in parts[i].nodes && Mentions(parts[i].nodes[p], n)
  {
    var body := Combine(parts).nodes[p];
    if Mentions(body, n) {
      var f :| f in body && FieldMentions(body[f], n);
      CombineContents(parts, p, f);
      AgreeingFieldsMention(body[f], FieldUnion(parts, p, f), n);
      var m: Member<N> :| m in FieldUnion(parts, p, f) && MemberMentions(m, n);
      var i :| 0 <= i < |parts| && p in parts[i].nodes && f in parts[i].nodes[p] && m in parts[i].nodes[p][f];
      assert FieldMentions(parts[i].nodes[p][f], n);
    }
    if exists i :: 0 <= i < |parts| && p in parts[i].nodes && Mentions(parts[i].nodes[p], n) {
      var i :| 0 <= i < |parts| && p in parts[i].nodes && Mentions(parts[i].nodes[p], n);
      var f :| f in parts[i].nodes[p] && FieldMentions(parts[i].nodes[p][f], n);
      var m: Member<N> :| m in parts[i].nodes[p][f] && MemberMentions(m, n);
      assert m in FieldUnion(parts, p, f);
      assert f in FieldsOf(parts, p);
      CombineContents(parts, p, f);
      assert FieldMentions(FieldUnion(parts, p, f), n);
      AgreeingFieldsMention(body[f], FieldUnion(parts, p, f), n);
    }
  }

  //----------------------------------------------------------------------------
  // Nesting merges, and the chunked fold
  //----------------------------------------------------------------------------

  /**
   * Merging the result of a merge with further parts agrees with merging all
   * the parts at once.
   */
  lemma CombineNested<N(!new)>(ps: seq<Definition<N>>, qs: seq<Definition<N>>)
    ensures Agree(Combine([Combine(ps)] + qs), Combine(ps + qs))
  {
    var inner := Combine(ps);
    var l := Combine([inner] + qs);
    var r := Combine(ps + qs);
    CollectSplit([inner], qs);
    CollectSplit(ps, qs);
    CollectOne(inner);
    CombineSets(ps);
    CombineSets([inner] + qs);
    CombineSets(ps + qs);
    assert l.nodes.Keys == r.nodes.Keys;
    assert l.statementType == r.statementType && l.expressionType == r.expressionType;
    forall k | k in l.nodes ensures l.nodes[k].Keys == r.nodes[k].Keys {
      NestedField(ps, qs, k, "");
    }
    forall k, f | k in l.nodes && f in l.nodes[k]
      ensures Plains(l.nodes[k][f]) == Plains(r.nodes[k][f])
      ensures ArrayElements(l.nodes[k][f]) == ArrayElements(r.nodes[k][f])
    {
      NestedField(ps, qs, k, f);
    }
  }

  /** What `CombineNested` needs of one kind and one field. */
  predicate NestedStep<N(!new)>(ps: seq<Definition<N>>, qs: seq<Definition<N>>, k: N, f: string)
  {
    var l := Combine([Combine(ps)] + qs);
    var r := Combine(ps + qs);
    && (k in l.nodes ==> k in r.nodes && l.nodes[k].Keys == r.nodes[k].Keys)
    && (k in l.nodes && f in l.nodes[k] ==>
          && Plains(l.nodes[k][f]) == Plains(r.nodes[k][f])
          && ArrayElements(l.nodes[k][f]) == ArrayElements(r.nodes[k][f]))
  }

  lemma NestedField<N(!new)>(ps: seq<Definition<N>>, qs: seq<Definition<N>>, k: N, f: string)
    ensures NestedStep(ps, qs, k, f)
  {
    var inner := Combine(ps);
    var lhs := [inner] + qs;
    var rhs := ps + qs;
    CollectSplit([inner], qs);
    CollectSplit(ps, qs);
    CollectOne(inner);
    CollectFieldsSplit([inner], qs, k, f);
    CollectFieldsSplit(ps, qs, k, f);
    CollectOneField(inner, k, f);
    CombineSets(ps);
    CombineSets(lhs);
    CombineSets(rhs);
    CombineContents(ps, k, f);
    CombineContents(lhs, k, f);
    CombineContents(rhs, k, f);
    OnlyGivenFields(ps, k, f);
    var given := if k in inner.nodes && f in inner.nodes[k] then inner.nodes[k][f] else {};
    assert Plains(given) == Plains(FieldUnion(ps, k, f)) && ArrayElements(given) == ArrayElements(FieldUnion(ps, k, f));
    ContentsOfUnion(given, FieldUnion(qs, k, f));
    ContentsOfUnion(FieldUnion(ps, k, f), FieldUnion(qs, k, f));
  }

  /** The contributions of a split list are the contributions of its halves. */
  lemma ContributionsSplit<N(!new)>(layers: seq<Enhancement<N>>, n: nat)
    requires n <= |layers|
    ensures Contributions(layers) == Contributions(layers[..n]) + Contributions(layers[n..])
  {
  }

  /** The parts of the first chunk followed by the later contributions are the parts of the flat merge. */
  lemma ChunkThenRest<N(!new)>(d: Definition<N>, layers: seq<Enhancement<N>>, n: nat)
    requires n <= |layers|
    ensures ([d] + Contributions(layers[..n])) + Contributions(layers[n..]) == [d] + Contributions(layers)
  {
    ContributionsSplit(layers, n);
  }

  /**
   * `ExtendsRec`, whatever its chunk width, agrees with merging the base and
   * every contribution at once: the kinds, field names, members and kind sets
   * do not depend on how the layers are grouped.
   */
  lemma {:induction false} ExtendsByAgreesWithFlat<N(!new)>(d: Definition<N>, layers: seq<Enhancement<N>>, width: nat)
    requires width >= 1
    ensures Agree(ExtendsBy(d, layers, width), Combine([d] + Contributions(layers)))
    decreases |layers|
  {
    if |layers| <= width {
      assert layers[..|layers|] == layers;
    } else {
      var ps := [d] + Contributions(layers[..width]);
      var merged := Combine(ps);
      var rest := Contributions(layers[width..]);
      assert ExtendsBy(d, layers, width) == ExtendsBy(merged, layers[width..], width);
      ExtendsByAgreesWithFlat(merged, layers[width..], width);
      CombineNested(ps, rest);
      ChunkThenRest(d, layers, width);
      AgreeTransitive(ExtendsBy(d, layers, width), Combine([merged] + rest), Combine([d] + Contributions(layers)));
    }
  }

  /** Chunking independence: any two chunk widths give agreeing definitions, with the same parents. */
  lemma ChunkWidthIrrelevant<N(!new)>(d: Definition<N>, layers: seq<Enhancement<N>>, w1: nat, w2: nat, k: N)
    requires w1 >= 1 && w2 >= 1
    ensures Agree(ExtendsBy(d, layers, w1), ExtendsBy(d, layers, w2))
    ensures ParentProperty(ExtendsBy(d, layers, w1), k) == ParentProperty(ExtendsBy(d, layers, w2), k)
  {
    ExtendsByAgreesWithFlat(d, layers, w1);
    ExtendsByAgreesWithFlat(d, layers, w2);
    AgreeTransitive(ExtendsBy(d, layers, w1), Combine([d] + Contributions(layers)), ExtendsBy(d, layers, w2));
    AgreeSameRelations(ExtendsBy(d, layers, w1), ExtendsBy(d, layers, w2), k);
  }

  //----------------------------------------------------------------------------
  // Equal merges
  //----------------------------------------------------------------------------

  /** A merge is determined by what it collects from its parts. */
  lemma CombineByCollections<N(!new)>(ps: seq<Definition<N>>, qs: seq<Definition<N>>)
    requires KindsOf(ps) == KindsOf(qs)
    requires StatementsOf(ps) == StatementsOf(qs) && ExpressionsOf(ps) == ExpressionsOf(qs)
    requires forall k :: FieldsOf(ps, k) == FieldsOf(qs, k)
    requires forall k, f :: FieldUnion(ps, k, f) == FieldUnion(qs, k, f)
    ensures Combine(ps) == Combine(qs)
  {
    forall k | k in KindsOf(ps) ensures MergeNodeProperties(ps, k) == MergeNodeProperties(qs, k) {
    }
    assert MergeNodes(ps) == MergeNodes(qs);
  }

  /**
   * The order of the parts, and how often a part occurs, do not matter: two
   * lists that hold the same definitions merge to the same definition.
   */
  lemma CombineOrderIrrelevant<N(!new)>(ps: seq<Definition<N>>, qs: seq<Definition<N>>)
    requires forall x :: x in ps <==> x in qs
    ensures Combine(ps) == Combine(qs)
  {
    SameCollections(ps, qs);
    SameCollections(qs, ps);
    CombineByCollections(ps, qs);
  }

  /** Everything collected from `ps` is collected from `qs` when every part of `ps` is a part of `qs`. */
  lemma SameCollections<N(!new)>(ps: seq<Definition<N>>, qs: seq<Definition<N>>)
    requires forall x :: x in ps ==> x in qs
    ensures KindsOf(ps) <= KindsOf(qs)
    ensures StatementsOf(ps) <= StatementsOf(qs) && ExpressionsOf(ps) <= ExpressionsOf(qs)
    ensures forall k :: FieldsOf(ps, k) <= FieldsOf(qs, k)
    ensures forall k, f :: FieldUnion(ps, k, f) <= FieldUnion(qs, k, f)
  {
    forall i | 0 <= i < |ps| ensures exists j :: 0 <= j < |qs| && qs[j] == ps[i] {
      assert ps[i] in qs;
    }
  }

  /** The empty definition that a missing enhancement contributes adds nothing to a merge. */
  lemma EmptyPartsAddNothing<N(!new)>(ps: seq<Definition<N>>, pad: seq<Definition<N>>)
    requires forall x :: x in pad ==> x == Contribution(NoEnhancement())
    ensures Combine(ps + pad) == Combine(ps)
  {
    CollectSplit(ps, pad);
    assert KindsOf(pad) == {} && StatementsOf(pad) == {} && ExpressionsOf(pad) == {} by {
      forall i | 0 <= i < |pad| ensures pad[i] == Contribution(NoEnhancement()) {
        assert pad[i] in pad;
      }
    }
    forall k ensures FieldsOf(ps + pad, k) == FieldsOf(ps, k) {
      CollectFieldsSplit(ps, pad, k, "");
      OnlyGivenFields(pad, k, "");
    }
    forall k, f ensures FieldUnion(ps + pad, k, f) == FieldUnion(ps, k, f) {
      CollectFieldsSplit(ps, pad, k, f);
      OnlyGivenFields(pad, k, f);
    }
    CombineByCollections(ps + pad, ps);
  }

  /** `Extends<D, E>` on a single enhancement is the fold over the one-element list `[E]`. */
  lemma ExtendsOneIsFold<N(!new)>(d: Definition<N>, e: Enhancement<N>)
    ensures ExtendsOne(d, e) == Extends(d, [e])
  {
    var empty := Contribution(NoEnhancement());
    assert [e][..1] == [e];
    assert Contributions([e]) == [Contribution(e)];
    assert [d] + Contributions([e]) == [d, Contribution(e)];
    assert Extends(d, [e]) == Combine([d, Contribution(e)]);
    assert [d, Contribution(e), empty, empty, empty] == [d, Contribution(e)] + [empty, empty, empty];
    EmptyPartsAddNothing([d, Contribution(e)], [empty, empty, empty]);
  }

  //----------------------------------------------------------------------------
  // Uniform fields: the chunked fold gives exactly the flat merge
  //----------------------------------------------------------------------------

  /** Every part that gives field `f` to kind `k` gives a union of arrays only, and one part gives it. */
  ghost predicate ListField<N(!new)>(parts: seq<Definition<N>>, k: N, f: string)
  {
    && (exists i :: Gives(parts, i, k, f))
    && (forall i :: Gives(parts, i, k, f) ==> AllArrays(parts[i].nodes[k][f]))
  }

  /** Every part that gives field `f` to kind `k` gives a non-empty union without arrays, and one part gives it. */
  ghost predicate PlainField<N(!new)>(parts: seq<Definition<N>>, k: N, f: string)
  {
    && (exists i :: Gives(parts, i, k, f))
    && (forall i :: Gives(parts, i, k, f) ==> parts[i].nodes[k][f] != {} && NoArrays(parts[i].nodes[k][f]))
  }

  predicate NoArrays<N(!new)>(t: FieldType<N>)
  {
    forall m :: m in t ==> m.Plain?
  }

  /** A union without arrays is its non-array members. */
  lemma NoArraysByPlains<N(!new)>(t: FieldType<N>)
    requires NoArrays(t)
    ensures t == set s | s in Plains(t) :: Plain(s)
  {
  }

  /** A field given by the flat parts is given by the parts of the nested merge. */
  lemma GivenCarried<N(!new)>(ps: seq<Definition<N>>, qs: seq<Definition<N>>, k: N, f: string)
    requires exists i :: Gives(ps + qs, i, k, f)
    ensures exists i :: Gives([Combine(ps)] + qs, i, k, f)
  {
    var lhs := [Combine(ps)] + qs;
    var rhs := ps + qs;
    var i :| Gives(rhs, i, k, f);
    if i < |ps| {
      assert Gives(ps, i, k, f) && ps[i] == rhs[i];
      CombineField(ps, k, f);
      assert Gives(lhs, 0, k, f);
    } else {
      assert Gives(lhs, i - |ps| + 1, k, f) && lhs[i - |ps| + 1] == qs[i - |ps|];
    }
  }

  /** The parts of `ps` that give a field are parts of `ps + qs` that give it. */
  lemma GivenByPrefix<N(!new)>(ps: seq<Definition<N>>, qs: seq<Definition<N>>, j: int, k: N, f: string)
    requires Gives(ps, j, k, f)
    ensures Gives(ps + qs, j, k, f) && (ps + qs)[j] == ps[j]
  {
  }

  lemma GivenBySuffix<N(!new)>(x: Definition<N>, ps: seq<Definition<N>>, qs: seq<Definition<N>>, i: int, k: N, f: string)
    requires Gives([x] + qs, i, k, f) && i > 0
    ensures Gives(ps + qs, |ps| + i - 1, k, f) && (ps + qs)[|ps| + i - 1] == ([x] + qs)[i]
  {
  }

  /** A merged list field stays a list field for the next merge. */
  lemma ListFieldCarried<N(!new)>(ps: seq<Definition<N>>, qs: seq<Definition<N>>, k: N, f: string)
    requires ListField(ps + qs, k, f)
    ensures ListField([Combine(ps)] + qs, k, f)
  {
    var lhs := [Combine(ps)] + qs;
    GivenCarried(ps, qs, k, f);
    forall i | Gives(lhs, i, k, f) ensures AllArrays(lhs[i].nodes[k][f]) {
      if i == 0 {
        MergedListField(ps, qs, k, f);
      } else {
        GivenBySuffix(Combine(ps), ps, qs, i, k, f);
      }
    }
  }

  /** The merge of the first parts gives a list field when they all give `f` as a list. */
  lemma MergedListField<N(!new)>(ps: seq<Definition<N>>, qs: seq<Definition<N>>, k: N, f: string)
    requires ListField(ps + qs, k, f)
    requires k in Combine(ps).nodes && f in Combine(ps).nodes[k]
    ensures AllArrays(Combine(ps).nodes[k][f])
  {
    CombineField(ps, k, f);
    forall j | Gives(ps, j, k, f) ensures AllArrays(ps[j].nodes[k][f]) {
      GivenByPrefix(ps, qs, j, k, f);
    }
    CombineFieldAllLists(ps, k, f);
  }

  /** A merged plain field stays a plain field for the next merge. */
  lemma PlainFieldCarried<N(!new)>(ps: seq<Definition<N>>, qs: seq<Definition<N>>, k: N, f: string)
    requires PlainField(ps + qs, k, f)
    ensures PlainField([Combine(ps)] + qs, k, f)
  {
    var lhs := [Combine(ps)] + qs;
    GivenCarried(ps, qs, k, f);
    forall i | Gives(lhs, i, k, f) ensures lhs[i].nodes[k][f] != {} && NoArrays(lhs[i].nodes[k][f]) {
      if i == 0 {
        CombineField(ps, k, f);
        var j :| Gives(ps, j, k, f);
        forall j | Gives(ps, j, k, f) ensures ps[j].nodes[k][f] != {} && NoArrays(ps[j].nodes[k][f]) {
          GivenByPrefix(ps, qs, j, k, f);
        }
        CombineFieldNoLists(ps, k, f);
        var m :| m in ps[j].nodes[k][f];
        assert m in FieldUnion(ps, k, f);
      } else {
        GivenBySuffix(Combine(ps), ps, qs, i, k, f);
      }
    }
  }

  /** Two fields with the same contents that are both one array, or both without arrays, are equal. */
  lemma UniformFieldsEqual<N(!new)>(t: FieldType<N>, u: FieldType<N>)
    requires Plains(t) == Plains(u) && ArrayElements(t) == ArrayElements(u)
    requires (t == {ArrayOf(ArrayElements(t))} && u == {ArrayOf(ArrayElements(u))}) || (NoArrays(t) && NoArrays(u))
    ensures t == u
  {
    if NoArrays(t) && NoArrays(u) {
      NoArraysByPlains(t);
      NoArraysByPlains(u);
    }
  }

  /** One merge step on a list field: the nested merge gives the same field as the flat one. */
  lemma NestedListField<N(!new)>(ps: seq<Definition<N>>, qs: seq<Definition<N>>, k: N, f: string)
    requires ListField(ps + qs, k, f)
    ensures ListField([Combine(ps)] + qs, k, f)
    ensures k in Combine([Combine(ps)] + qs).nodes && f in Combine([Combine(ps)] + qs).nodes[k]
    ensures k in Combine(ps + qs).nodes && f in Combine(ps + qs).nodes[k]
    ensures Combine([Combine(ps)] + qs).nodes[k][f] == Combine(ps + qs).nodes[k][f]
  {
    var next := [Combine(ps)] + qs;
    var flat := ps + qs;
    NestedField(ps, qs, k, f);
    ListFieldCarried(ps, qs, k, f);
    CombineFieldAllLists(next, k, f);
    CombineFieldAllLists(flat, k, f);
    CombineContents(next, k, f);
    CombineContents(flat, k, f);
  }

  /** One merge step on a plain field: the nested merge gives the same field as the flat one. */
  lemma NestedPlainField<N(!new)>(ps: seq<Definition<N>>, qs: seq<Definition<N>>, k: N, f: string)
    requires PlainField(ps + qs, k, f)
    ensures PlainField([Combine(ps)] + qs, k, f)
    ensures k in Combine([Combine(ps)] + qs).nodes && f in Combine([Combine(ps)] + qs).nodes[k]
    ensures k in Combine(ps + qs).nodes && f in Combine(ps + qs).nodes[k]
    ensures Combine([Combine(ps)] + qs).nodes[k][f] == Combine(ps + qs).nodes[k][f]
  {
    var next := [Combine(ps)] + qs;
    var flat := ps + qs;
    NestedField(ps, qs, k, f);
    PlainFieldCarried(ps, qs, k, f);
    CombineFieldNoLists(next, k, f);
    CombineFieldNoLists(flat, k, f);
    UniformFieldsEqual(Combine(next).nodes[k][f], Combine(flat).nodes[k][f]);
  }

  /** One step of the fold: the first chunk is merged into the base, and the rest folded onto it. */
  lemma FoldStep<N(!new)>(d: Definition<N>, layers: seq<Enhancement<N>>, width: nat)
    requires width >= 1 && |layers| > width
    ensures ExtendsBy(d, layers, width) ==
            ExtendsBy(Combine([d] + Contributions(layers[..width])), layers[width..], width)
  {
  }

  /** The last step of the fold merges the base with every remaining layer. */
  lemma FoldLast<N(!new)>(d: Definition<N>, layers: seq<Enhancement<N>>, width: nat)
    requires width >= 1 && |layers| <= width
    ensures ExtendsBy(d, layers, width) == Combine([d] + Contributions(layers))
  {
    assert layers[..|layers|] == layers;
  }

  /**
   * On a field that every contributing part gives as arrays only, or every
   * contributing part gives without arrays, the chunked fold gives exactly
   * the field of the flat merge: a single array of all the elements, or the
   * plain union.
   */
  lemma {:induction false} UniformFieldExact<N(!new)>(d: Definition<N>, layers: seq<Enhancement<N>>, width: nat, k: N, f: string)
    requires width >= 1
    requires ListField([d] + Contributions(layers), k, f) || PlainField([d] + Contributions(layers), k, f)
    ensures k in ExtendsBy(d, layers, width).nodes && f in ExtendsBy(d, layers, width).nodes[k]
    ensures k in Combine([d] + Contributions(layers)).nodes && f in Combine([d] + Contributions(layers)).nodes[k]
    ensures ExtendsBy(d, layers, width).nodes[k][f] == Combine([d] + Contributions(layers)).nodes[k][f]
    decreases |layers|
  {
    var flat := [d] + Contributions(layers);
    if |layers| <= width {
      FoldLast(d, layers, width);
      if ListField(flat, k, f) {
        ListFieldMerged(flat, k, f);
      } else {
        PlainFieldMerged(flat, k, f);
      }
    } else {
      var ps := [d] + Contributions(layers[..width]);
      var rest := Contributions(layers[width..]);
      FoldStep(d, layers, width);
      ChunkThenRest(d, layers, width);
      if ListField(flat, k, f) {
        NestedListField(ps, rest, k, f);
      } else {
        NestedPlainField(ps, rest, k, f);
      }
      UniformFieldExact(Combine(ps), layers[width..], width, k, f);
    }
  }

  /** The flat merge of a list field is one array of every element contributed. */
  lemma ListFieldMerged<N(!new)>(parts: seq<Definition<N>>, k: N, f: string)
    requires ListField(parts, k, f)
    ensures k in Combine(parts).nodes && f in Combine(parts).nodes[k]
    ensures Combine(parts).nodes[k][f] == {ArrayOf(ArrayElements(FieldUnion(parts, k, f)))}
  {
    CombineFieldAllLists(parts, k, f);
  }

  /** The flat merge of a plain field is the union of the contributions. */
  lemma PlainFieldMerged<N(!new)>(parts: seq<Definition<N>>, k: N, f: string)
    requires PlainField(parts, k, f)
    ensures k in Combine(parts).nodes && f in Combine(parts).nodes[k]
    ensures Combine(parts).nodes[k][f] == FieldUnion(parts, k, f)
  {
    CombineFieldNoLists(parts, k, f);
  }

  //----------------------------------------------------------------------------
  // A mixed field: the chunking shows
  //----------------------------------------------------------------------------

  /**
   * When a field mixes arrays with other members across layers, the grouping
   * of the fold shows in the result: with one layer per step the first two
   * arrays are united before `null` arrives (`(A | B)[] | null`), while four
   * layers per step keep them apart (`A[] | B[] | null`).
   */
  lemma MixedFieldDependsOnChunking<N(!new)>(d: Definition<N>, x: Enhancement<N>, y: Enhancement<N>, k: N, f: string,
                                            first: set<Scalar<N>>, second: set<Scalar<N>>, other: Scalar<N>)
    requires k in d.nodes && f in d.nodes[k] && d.nodes[k][f] == {ArrayOf(first)}
    requires var cx := Contribution(x); k in cx.nodes && f in cx.nodes[k] && cx.nodes[k][f] == {ArrayOf(second)}
    requires var cy := Contribution(y); k in cy.nodes && f in cy.nodes[k] && cy.nodes[k][f] == {Plain(other)}
    requires !(second <= first)
    ensures k in ExtendsBy(d, [x, y], 1).nodes && f in ExtendsBy(d, [x, y], 1).nodes[k]
    ensures k in Extends(d, [x, y]).nodes && f in Extends(d, [x, y]).nodes[k]
    ensures ExtendsBy(d, [x, y], 1).nodes[k][f] == {ArrayOf(first + second), Plain(other)}
    ensures Extends(d, [x, y]).nodes[k][f] == {ArrayOf(first), ArrayOf(second), Plain(other)}
    ensures ExtendsBy(d, [x, y], 1) != Extends(d, [x, y])
  {
    OneLayerPerStep(d, x, y, k, f, first, second, other);
    FourLayersPerStep(d, x, y, k, f, first, second, other);
    GroupingShows(first, second, other);
  }

  lemma GroupingShows<N(!new)>(first: set<Scalar<N>>, second: set<Scalar<N>>, other: Scalar<N>)
    requires !(second <= first)
    ensures var narrow: FieldType<N> := {ArrayOf(first + second), Plain(other)};
            narrow != {ArrayOf(first), ArrayOf(second), Plain(other)}
  {
    var e :| e in second && e !in first;
    assert e in first + second;
    assert ArrayOf(first) != ArrayOf(first + second);
  }

  lemma OneLayerPerStep<N(!new)>(d: Definition<N>, x: Enhancement<N>, y: Enhancement<N>, k: N, f: string,
                                 first: set<Scalar<N>>, second: set<Scalar<N>>, other: Scalar<N>)
    requires k in d.nodes && f in d.nodes[k] && d.nodes[k][f] == {ArrayOf(first)}
    requires var cx := Contribution(x); k in cx.nodes && f in cx.nodes[k] && cx.nodes[k][f] == {ArrayOf(second)}
    requires var cy := Contribution(y); k in cy.nodes && f in cy.nodes[k] && cy.nodes[k][f] == {Plain(other)}
    ensures k in ExtendsBy(d, [x, y], 1).nodes && f in ExtendsBy(d, [x, y], 1).nodes[k]
    ensures ExtendsBy(d, [x, y], 1).nodes[k][f] == {ArrayOf(first + second), Plain(other)}
  {
    var cx, cy := Contribution(x), Contribution(y);
    FoldTwoStepwise(d, x, y);
    var step := Combine([d, cx]);
    FieldUnionOfTwo(d, cx, k, f);
    CombineFieldValue([d, cx], k, f, {ArrayOf(first), ArrayOf(second)});
    UniteTwoArrays(first, second);
    FieldUnionOfTwo(step, cy, k, f);
    UniteKeepsPlain({ArrayOf(first + second), Plain(other)}, other);
    CombineFieldValue([step, cy], k, f, {ArrayOf(first + second), Plain(other)});
  }

  lemma FourLayersPerStep<N(!new)>(d: Definition<N>, x: Enhancement<N>, y: Enhancement<N>, k: N, f: string,
                                   first: set<Scalar<N>>, second: set<Scalar<N>>, other: Scalar<N>)
    requires k in d.nodes && f in d.nodes[k] && d.nodes[k][f] == {ArrayOf(first)}
    requires var cx := Contribution(x); k in cx.nodes && f in cx.nodes[k] && cx.nodes[k][f] == {ArrayOf(second)}
    requires var cy := Contribution(y); k in cy.nodes && f in cy.nodes[k] && cy.nodes[k][f] == {Plain(other)}
    ensures k in Extends(d, [x, y]).nodes && f in Extends(d, [x, y]).nodes[k]
    ensures Extends(d, [x, y]).nodes[k][f] == {ArrayOf(first), ArrayOf(second), Plain(other)}
  {
    var cx, cy := Contribution(x), Contribution(y);
    FoldTwoFlat(d, x, y);
    FieldUnionOfThree(d, cx, cy, k, f);
    UniteKeepsPlain({ArrayOf(first), ArrayOf(second), Plain(other)}, other);
    CombineFieldValue([d, cx, cy], k, f, {ArrayOf(first), ArrayOf(second), Plain(other)});
  }

  /** Two layers, four per step: one merge of the base with both. */
  lemma FoldTwoFlat<N(!new)>(d: Definition<N>, x: Enhancement<N>, y: Enhancement<N>)
    ensures Extends(d, [x, y]) == Combine([d, Contribution(x), Contribution(y)])
  {
    FoldLast(d, [x, y], 4);
    assert Contributions([x, y]) == [Contribution(x), Contribution(y)];
    assert [d] + Contributions([x, y]) == [d, Contribution(x), Contribution(y)];
  }

  /** Two layers, one per step: the base merged with the first, then with the second. */
  lemma FoldTwoStepwise<N(!new)>(d: Definition<N>, x: Enhancement<N>, y: Enhancement<N>)
    ensures ExtendsBy(d, [x, y], 1) == Combine([Combine([d, Contribution(x)]), Contribution(y)])
  {
    FoldStep(d, [x, y], 1);
    assert [x, y][..1] == [x] && [x, y][1..] == [y];
    assert Contributions([x]) == [Contribution(x)] && Contributions([y]) == [Contribution(y)];
    assert [d] + Contributions([x]) == [d, Contribution(x)];
    var step := Combine([d, Contribution(x)]);
    FoldLast(step, [y], 1);
    assert [step] + Contributions([y]) == [step, Contribution(y)];
  }

  lemma UniteTwoArrays<N(!new)>(first: set<Scalar<N>>, second: set<Scalar<N>>)
    ensures UniteArray({ArrayOf(first), ArrayOf(second)}) == {ArrayOf(first + second)}
  {
    var t: FieldType<N> := {ArrayOf(first), ArrayOf(second)};
    assert ArrayElements(t) == first + second by {
      forall e | e in first + second ensures e in ArrayElements(t) {
        if e in first { assert ArrayOf(first) in t; } else { assert ArrayOf(second) in t; }
      }
    }
  }

  lemma UniteKeepsPlain<N(!new)>(t: FieldType<N>, s: Scalar<N>)
    requires Plain(s) in t
    ensures UniteArray(t) == t
  {
  }

  /** The value of a field that some part gives is the united union of the contributions. */
  lemma CombineFieldValue<N(!new)>(parts: seq<Definition<N>>, k: N, f: string, t: FieldType<N>)
    requires k in KindsOf(parts) && f in FieldsOf(parts, k) && FieldUnion(parts, k, f) == t
    ensures k in Combine(parts).nodes && f in Combine(parts).nodes[k]
    ensures Combine(parts).nodes[k][f] == UniteArray(t)
  {
  }

  lemma FieldUnionOfTwo<N(!new)>(x: Definition<N>, y: Definition<N>, k: N, f: string)
    requires k in x.nodes && f in x.nodes[k] && k in y.nodes && f in y.nodes[k]
    ensures FieldUnion([x, y], k, f) == x.nodes[k][f] + y.nodes[k][f]
    ensures k in KindsOf([x, y]) && f in FieldsOf([x, y], k)
  {
    assert Gives([x, y], 0, k, f) && Gives([x, y], 1, k, f);
  }

  lemma FieldUnionOfThree<N(!new)>(x: Definition<N>, y: Definition<N>, z: Definition<N>, k: N, f: string)
    requires k in x.nodes && f in x.nodes[k] && k in y.nodes && f in y.nodes[k] && k in z.nodes && f in z.nodes[k]
    ensures FieldUnion([x, y, z], k, f) == x.nodes[k][f] + y.nodes[k][f] + z.nodes[k][f]
    ensures k in KindsOf([x, y, z]) && f in FieldsOf([x, y, z], k)
  {
    assert Gives([x, y, z], 0, k, f) && Gives([x, y, z], 1, k, f) && Gives([x, y, z], 2, k, f);
  }
}
