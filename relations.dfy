/**
 * Laws of the child, parent and tag relations of a definition
 * (lib/types/ast-definer.d.ts, `ChildType`, `ParentType`, `Node` and
 * `ExtractNode`).
 */
module Relations {
  import opened Definer

  /** The references collected by `Refs` are exactly the names that some member mentions. */
  lemma RefsAreMentions<N(!new)>(t: FieldType<N>, n: TypeName<N>)
    ensures n in Refs(t) <==> FieldMentions(t, n)
  {
    if FieldMentions(t, n) {
      var m :| m in t && MemberMentions(m, n);
      if m.Plain? {
        assert n in (set m | m in t && m.Plain? && m.scalar.Ref? :: m.scalar.target);
      } else {
        assert n in (set m, s | m in t && m.ArrayOf? && s in m.elements && s.Ref? :: s.target) by {
          assert Ref(n) in m.elements;
        }
      }
    }
  }

  /** The references of a body are exactly the names that some field mentions. */
  lemma BodyRefsAreMentions<N(!new)>(b: Body<N>, n: TypeName<N>)
    ensures n in BodyRefs(b) <==> Mentions(b, n)
  {
    if n in BodyRefs(b) {
      var f :| f in b && n in Refs(b[f]);
      RefsAreMentions(b[f], n);
    }
    if Mentions(b, n) {
      var f :| f in b && FieldMentions(b[f], n);
      RefsAreMentions(b[f], n);
      assert n in Refs(b[f]);
    }
  }

  /**
   * `ChildType`: `c` is a child of `p` exactly when some field of `p` refers to
   * `c` by name, to `Node`, or to `Statement` or `Expression` while `c` is one;
   * both must be defined kinds.
   */
  lemma ChildTypeByMentions<N(!new)>(d: Definition<N>, p: N, c: N)
    ensures c in ChildType(d, p) <==>
      && p in d.nodes && c in d.nodes
      && (|| Mentions(d.nodes[p], AnyNode)
          || Mentions(d.nodes[p], Kind(c))
          || (c in d.statementType && Mentions(d.nodes[p], AnyStatement))
          || (c in d.expressionType && Mentions(d.nodes[p], AnyExpression)))
  {
    if p in d.nodes {
      var b := d.nodes[p];
      BodyRefsAreMentions(b, AnyNode);
      BodyRefsAreMentions(b, Kind(c));
      BodyRefsAreMentions(b, AnyStatement);
      BodyRefsAreMentions(b, AnyExpression);
    }
  }

  /**
   * Round trip between the two relations: the parents of `k` are the kinds
   * whose children include `k`, and the children of `p` are the kinds whose
   * parents include `p`.
   */
  lemma ParentChildRoundTrip<N(!new)>(d: Definition<N>, p: N, k: N)
    ensures p in ParentType(d, k) <==> k in ChildType(d, p)
    ensures k in ChildType(d, p) ==> p in d.nodes && k in d.nodes
  {
  }

  /**
   * A kind that no field refers to, neither by name nor through `Node`,
   * `Statement` or `Expression`, is a root: its `parent` is `null`.
   */
  lemma UnreferencedKindIsRoot<N(!new)>(d: Definition<N>, k: N)
    requires forall p :: p in d.nodes ==>
      && !Mentions(d.nodes[p], AnyNode)
      && !Mentions(d.nodes[p], Kind(k))
      && (k in d.statementType ==> !Mentions(d.nodes[p], AnyStatement))
      && (k in d.expressionType ==> !Mentions(d.nodes[p], AnyExpression))
    ensures ParentProperty(d, k) == None
  {
    forall p | p in d.nodes ensures k !in ChildType(d, p) {
      ChildTypeByMentions(d, p, k);
    }
  }

  /** A kind with a declared `type` of one tag literal carries that tag alone. */
  lemma DeclaredTag<N(!new)>(k: N, body: Body<N>, t: N)
    requires "type" in body && body["type"] == {Plain(TagLit(t))}
    ensures Tag(k, body) == {t} && StringTags(body) == {}
  {
    assert t in (set m | m in body["type"] && m.Plain? && m.scalar.TagLit? :: m.scalar.tag) by {
      assert Plain(TagLit(t)) in body["type"];
    }
  }

  /**
   * `ExtractNode`: for a kind that carries a single tag name and no other
   * string type, a tag name selects it exactly when it is that tag.
   */
  lemma ExtractNodeBySingleTag<N(!new)>(d: Definition<N>, t: N, k: N)
    requires k in d.nodes && |Tag(k, d.nodes[k])| == 1 && StringTags(d.nodes[k]) == {}
    ensures k in ExtractNode(d, Kind(t)) <==> Tag(k, d.nodes[k]) == {t}
  {
    var tag := Tag(k, d.nodes[k]);
    var x :| x in tag;
    assert tag == {x} by {
      forall y | y in tag ensures y == x {
        if y != x {
          assert {x, y} <= tag;
          assert |{x, y}| == 2;
          assert false by { SubsetCardinality({x, y}, tag); }
        }
      }
    }
  }

  /** A kind that carries the single tag `tk` is selected by tag name `t` exactly when `tk` is `t`. */
  lemma ExtractNodeByTag<N(!new)>(d: Definition<N>, k: N, t: N, tk: N)
    requires k in d.nodes ==> Tag(k, d.nodes[k]) == {tk} && StringTags(d.nodes[k]) == {}
    ensures k in ExtractNode(d, Kind(t)) <==> k in d.nodes && tk == t
  {
  }

  lemma SubsetCardinality<T>(a: set<T>, b: set<T>)
    requires a <= b
    ensures |a| <= |b|
  {
    assert b == a + (b - a);
  }

  /**
   * Conflicting tags are not rejected: a kind whose declared `type` unites two
   * different tag literals carries both, and a query for either one leaves it out.
   */
  lemma ConflictingTagsSelectNothing<N(!new)>(d: Definition<N>, k: N, a: N, b: N)
    requires k in d.nodes && a != b
    requires "type" in d.nodes[k] && d.nodes[k]["type"] == {Plain(TagLit(a)), Plain(TagLit(b))}
    ensures Tag(k, d.nodes[k]) == {a, b}
    ensures k !in ExtractNode(d, Kind(a)) && k !in ExtractNode(d, Kind(b))
  {
    var body := d.nodes[k];
    var lits := set m: Member<N> | m in body["type"] && m.Plain? && m.scalar.TagLit? :: m.scalar.tag;
    assert a in lits by { assert Plain(TagLit(a)) in body["type"]; }
    assert b in lits by { assert Plain(TagLit(b)) in body["type"]; }
  }

  /**
   * A kind that is neither a statement nor an expression, and that no field
   * reaches through `Node`, has as its parents exactly the kinds that name it.
   */
  lemma ExactParents<N(!new)>(d: Definition<N>, k: N, qs: set<N>)
    requires k in d.nodes && qs <= d.nodes.Keys
    requires k !in d.statementType && k !in d.expressionType
    requires forall q :: q in qs ==> Mentions(d.nodes[q], Kind(k))
    requires forall p :: p in d.nodes ==> !Mentions(d.nodes[p], AnyNode)
    requires forall p :: p in d.nodes && Mentions(d.nodes[p], Kind(k)) ==> p in qs
    ensures ParentType(d, k) == qs
    ensures qs != {} ==> ParentProperty(d, k) == Some(qs)
  {
    forall p ensures p in ParentType(d, k) <==> p in qs {
      ChildTypeByMentions(d, p, k);
    }
  }

  /** A field made of references only refers to exactly the names it holds. */
  lemma RefsOfPlainRefs<N(!new)>(t: FieldType<N>, names: set<TypeName<N>>)
    requires forall m :: m in t ==> m.Plain? && m.scalar.Ref? && m.scalar.target in names
    requires forall n :: n in names ==> Plain(Ref(n)) in t
    ensures Refs(t) == names
  {
    forall n | n in names ensures n in Refs(t) {
      RefsAreMentions(t, n);
      assert MemberMentions(Plain(Ref(n)), n);
    }
    forall n | n in Refs(t) ensures n in names {
      RefsAreMentions(t, n);
    }
  }

  /** The kinds admitted by a union of kind names that are all defined are those kinds. */
  lemma AdmittedKinds<N(!new)>(d: Definition<N>, ks: set<N>)
    requires ks <= d.nodes.Keys
    ensures NormalizedUnion(d, set k | k in ks :: Kind(k)) == ks
  {
    var names := set k | k in ks :: Kind(k);
    forall k | k in ks ensures Admits(d, names, k) {
      assert Kind(k) in names && k in NormalizedType(d, Kind(k));
    }
  }

  /**
   * A declared `type` holding a string type that names no node tag keeps it in
   * the tag as it is, so no tag name selects the kind.
   */
  lemma StringTagSelectsNothing<N(!new)>(d: Definition<N>, k: N, s: Scalar<N>, t: N)
    requires k in d.nodes && "type" in d.nodes[k]
    requires Plain(s) in d.nodes[k]["type"] && OtherString(s)
    ensures s in StringTags(d.nodes[k])
    ensures k !in ExtractNode(d, Kind(t))
  {
    assert s in StringTags(d.nodes[k]) by {
      assert Plain(s) in d.nodes[k]["type"];
    }
  }

  /**
   * A `type` declared as the wide `string` gives the tag `string`: no tag name
   * and no kind-name fallback, and the kind is selected by no tag name.
   */
  lemma WideStringTag<N(!new)>(d: Definition<N>, k: N)
    requires k in d.nodes && "type" in d.nodes[k] && d.nodes[k]["type"] == {Plain(Opaque("string"))}
    ensures Tag(k, d.nodes[k]) == {} && StringTags(d.nodes[k]) == {Opaque("string")}
    ensures forall t :: k !in ExtractNode(d, Kind(t))
  {
    var body := d.nodes[k];
    assert Opaque("string") in StringTags(body) by {
      assert Plain(Opaque("string")) in body["type"];
    }
  }

  //----------------------------------------------------------------------------
  // ResolvedNodeRef
  //----------------------------------------------------------------------------

  /**
   * A resolved array element set: a reference becomes exactly the defined
   * kinds its name normalizes to, every other element is kept, and nothing
   * else appears.
   */
  lemma ResolvedElements<N(!new)>(d: Definition<N>, es: set<Scalar<N>>, c: N, s: Scalar<N>)
    ensures Ref(Kind(c)) in ResolveScalars(d, es) <==>
      exists e :: e in es && e.Ref? && c in NormalizedType(d, e.target)
    ensures !s.Ref? ==> (s in ResolveScalars(d, es) <==> s in es)
    ensures s in ResolveScalars(d, es) && s.Ref? ==> s.target.Kind? && s.target.kind in d.nodes
  {
    if exists e :: e in es && e.Ref? && c in NormalizedType(d, e.target) {
      var e :| e in es && e.Ref? && c in NormalizedType(d, e.target);
      var refs := set e, k | e in es && e.Ref? && k in NormalizedType(d, e.target) :: Ref(Kind(k));
      assert Ref(Kind(c)) in refs;
      assert refs <= ResolveScalars(d, es);
    }
  }

  /**
   * `ResolvedNodeRef` on the plain members of a field: a reference becomes
   * exactly the defined kinds its name normalizes to, every other plain member
   * is kept, and every resolved reference names a defined kind.
   */
  lemma ResolvedPlainMembers<N(!new)>(d: Definition<N>, t: FieldType<N>, c: N, s: Scalar<N>)
    ensures Plain(Ref(Kind(c))) in ResolveField(d, t) <==>
      exists m :: m in t && m.Plain? && m.scalar.Ref? && c in NormalizedType(d, m.scalar.target)
    ensures !s.Ref? ==> (Plain(s) in ResolveField(d, t) <==> Plain(s) in t)
    ensures Plain(s) in ResolveField(d, t) && s.Ref? ==> s.target.Kind? && s.target.kind in d.nodes
  {
    if exists m :: m in t && m.Plain? && m.scalar.Ref? && c in NormalizedType(d, m.scalar.target) {
      var m :| m in t && m.Plain? && m.scalar.Ref? && c in NormalizedType(d, m.scalar.target);
      assert Plain(Ref(Kind(c))) in
        (set m, k | m in t && m.Plain? && m.scalar.Ref? && k in NormalizedType(d, m.scalar.target) :: Plain(Ref(Kind(k))));
    }
  }

  /** `ResolvedNodeRef` on the array members of a field: each array keeps its place with its elements resolved. */
  lemma ResolvedArrays<N(!new)>(d: Definition<N>, t: FieldType<N>, es: set<Scalar<N>>)
    ensures ArrayOf(es) in ResolveField(d, t) <==>
      exists m :: m in t && m.ArrayOf? && es == ResolveScalars(d, m.elements)
  {
    if exists m :: m in t && m.ArrayOf? && es == ResolveScalars(d, m.elements) {
      var m :| m in t && m.ArrayOf? && es == ResolveScalars(d, m.elements);
      assert ArrayOf(es) in (set m | m in t && m.ArrayOf? :: ArrayOf(ResolveScalars(d, m.elements)));
    }
  }
}
