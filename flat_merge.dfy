/**
 * Facts about the flat merge `Combine([d] + ls)` of a base `d` with a list of
 * contributions `ls`, given what each contribution refers to and which
 * contributions give a field.  They hold for any kind type.
 */
module FlatMerge {
  import opened Definer
  import opened Relations
  import opened MergeLaws

  /** Every name that a kind of contribution `i` refers to is listed in `refd[i]`. */
  ghost predicate ReferencesWithin<N(!new)>(ls: seq<Definition<N>>, refd: seq<set<TypeName<N>>>)
  {
    && |refd| == |ls|
    && forall i, p, n :: 0 <= i < |ls| && p in ls[i].nodes && Mentions(ls[i].nodes[p], n) ==> n in refd[i]
  }

  /** A reference made by a merged kind comes from the base or from one contribution that lists it. */
  lemma FlatMentions<N(!new)>(d: Definition<N>, ls: seq<Definition<N>>, refd: seq<set<TypeName<N>>>,
                              p: N, n: TypeName<N>)
    requires ReferencesWithin(ls, refd)
    requires p in Combine([d] + ls).nodes && Mentions(Combine([d] + ls).nodes[p], n)
    ensures || (p in d.nodes && Mentions(d.nodes[p], n))
            || exists i :: 0 <= i < |ls| && p in ls[i].nodes && Mentions(ls[i].nodes[p], n) && n in refd[i]
  {
    var parts := [d] + ls;
    CombineMentions(parts, p, n);
    var i :| 0 <= i < |parts| && p in parts[i].nodes && Mentions(parts[i].nodes[p], n);
    if i > 0 {
      assert parts[i] == ls[i - 1];
    }
  }

  /** No merged kind refers to `Node` when neither the base nor any contribution does. */
  lemma FlatRefersToNoNode<N(!new)>(d: Definition<N>, ls: seq<Definition<N>>, refd: seq<set<TypeName<N>>>)
    requires ReferencesWithin(ls, refd)
    requires forall p :: p in d.nodes ==> !Mentions(d.nodes[p], AnyNode)
    requires forall i :: 0 <= i < |refd| ==> AnyNode !in refd[i]
    ensures forall p :: p in Combine([d] + ls).nodes ==> !Mentions(Combine([d] + ls).nodes[p], AnyNode)
  {
    forall p | p in Combine([d] + ls).nodes ensures !Mentions(Combine([d] + ls).nodes[p], AnyNode) {
      if Mentions(Combine([d] + ls).nodes[p], AnyNode) {
        FlatMentions(d, ls, refd, p, AnyNode);
      }
    }
  }

  /**
   * The parents of a merged kind `k` that the base never names and that only
   * contribution `j` names, at the kinds `qs`: exactly `qs`, provided `k` is
   * neither a statement nor an expression and nothing refers to `Node`.
   */
  lemma FlatParents<N(!new)>(d: Definition<N>, ls: seq<Definition<N>>, refd: seq<set<TypeName<N>>>,
                             k: N, j: int, qs: set<N>)
    requires ReferencesWithin(ls, refd) && 0 <= j < |ls|
    requires k in Combine([d] + ls).nodes
    requires k !in Combine([d] + ls).statementType && k !in Combine([d] + ls).expressionType
    requires forall p :: p in d.nodes ==> !Mentions(d.nodes[p], AnyNode) && !Mentions(d.nodes[p], Kind(k))
    requires forall i :: 0 <= i < |refd| ==> AnyNode !in refd[i]
    requires forall i :: 0 <= i < |refd| && i != j ==> Kind(k) !in refd[i]
    requires forall p :: p in ls[j].nodes && Mentions(ls[j].nodes[p], Kind(k)) ==> p in qs
    requires forall q :: q in qs ==> q in ls[j].nodes && Mentions(ls[j].nodes[q], Kind(k))
    ensures ParentType(Combine([d] + ls), k) == qs
  {
    var parts := [d] + ls;
    var flat := Combine(parts);
    CombineSets(parts);
    assert parts[j + 1] == ls[j];
    forall q | q in qs ensures q in flat.nodes && Mentions(flat.nodes[q], Kind(k)) {
      CombineMentions(parts, q, Kind(k));
    }
    forall p | p in flat.nodes && Mentions(flat.nodes[p], Kind(k)) ensures p in qs {
      FlatMentions(d, ls, refd, p, Kind(k));
    }
    FlatRefersToNoNode(d, ls, refd);
    ExactParents(flat, k, qs);
  }

  /**
   * A merged kind that neither the base nor any contribution names, and that
   * is neither a statement nor an expression, has no parents.
   */
  lemma FlatRoot<N(!new)>(d: Definition<N>, ls: seq<Definition<N>>, refd: seq<set<TypeName<N>>>, k: N)
    requires ReferencesWithin(ls, refd)
    requires k in Combine([d] + ls).nodes
    requires k !in Combine([d] + ls).statementType && k !in Combine([d] + ls).expressionType
    requires forall p :: p in d.nodes ==> !Mentions(d.nodes[p], AnyNode) && !Mentions(d.nodes[p], Kind(k))
    requires forall i :: 0 <= i < |refd| ==> AnyNode !in refd[i] && Kind(k) !in refd[i]
    ensures ParentType(Combine([d] + ls), k) == {}
  {
    var flat := Combine([d] + ls);
    forall p | p in flat.nodes && Mentions(flat.nodes[p], Kind(k)) ensures false {
      FlatMentions(d, ls, refd, p, Kind(k));
    }
    FlatRefersToNoNode(d, ls, refd);
    ExactParents(flat, k, {});
  }

  /** The union of a field that at most the two parts `a` and `b` give. */
  lemma UnionOfTwoGivers<N(!new)>(parts: seq<Definition<N>>, a: int, b: int, k: N, f: string)
    requires forall i :: Gives(parts, i, k, f) ==> i == a || i == b
    ensures FieldUnion(parts, k, f) ==
      (if Gives(parts, a, k, f) then parts[a].nodes[k][f] else {}) +
      (if Gives(parts, b, k, f) then parts[b].nodes[k][f] else {})
  {
    var ta := if Gives(parts, a, k, f) then parts[a].nodes[k][f] else {};
    var tb := if Gives(parts, b, k, f) then parts[b].nodes[k][f] else {};
    forall m ensures m in FieldUnion(parts, k, f) <==> m in ta + tb {
      if m in FieldUnion(parts, k, f) {
        var i :| Gives(parts, i, k, f) && m in parts[i].nodes[k][f];
      }
    }
  }

  /**
   * When contribution `j` is the only contribution that gives field `f` to
   * kind `k`, the givers of the merge are it and possibly the base, and the
   * field's union is theirs.
   */
  lemma FieldFromOnePart<N(!new)>(d: Definition<N>, ls: seq<Definition<N>>, j: int, k: N, f: string)
    requires 0 <= j < |ls| && Gives(ls, j, k, f)
    requires forall i :: 0 <= i < |ls| && i != j ==> !Gives(ls, i, k, f)
    ensures forall i :: Gives([d] + ls, i, k, f) <==> (i == 0 && k in d.nodes && f in d.nodes[k]) || i == j + 1
    ensures FieldUnion([d] + ls, k, f) ==
      (if k in d.nodes && f in d.nodes[k] then d.nodes[k][f] else {}) + ls[j].nodes[k][f]
  {
    var parts := [d] + ls;
    forall i ensures Gives(parts, i, k, f) <==> (i == 0 && k in d.nodes && f in d.nodes[k]) || i == j + 1 {
      if i == 0 {
        assert parts[0] == d;
      } else if 0 < i < |parts| {
        assert parts[i] == ls[i - 1];
        assert Gives(parts, i, k, f) == Gives(ls, i - 1, k, f);
      }
    }
    UnionOfTwoGivers(parts, 0, j + 1, k, f);
  }

  /** When no contribution gives field `f` to kind `k`, the merge has the base's field. */
  lemma FieldFromBase<N(!new)>(d: Definition<N>, ls: seq<Definition<N>>, k: N, f: string)
    requires k in d.nodes && f in d.nodes[k]
    requires forall i :: 0 <= i < |ls| ==> !Gives(ls, i, k, f)
    ensures forall i :: Gives([d] + ls, i, k, f) <==> i == 0
    ensures FieldUnion([d] + ls, k, f) == d.nodes[k][f]
  {
    var parts := [d] + ls;
    forall i ensures Gives(parts, i, k, f) <==> i == 0 {
      if i == 0 {
        assert parts[0] == d;
      } else if 0 < i < |parts| {
        assert parts[i] == ls[i - 1];
        assert Gives(parts, i, k, f) == Gives(ls, i - 1, k, f);
      }
    }
    UnionOfTwoGivers(parts, 0, 0, k, f);
  }

  /** What the base gives to field `f` of kind `k`: nothing when it does not give the field. */
  function BaseField<N(!new)>(d: Definition<N>, k: N, f: string): FieldType<N>
  {
    if k in d.nodes && f in d.nodes[k] then d.nodes[k][f] else {}
  }

  /**
   * When contribution `j` is the only contribution that gives field `f` to
   * kind `k`, and it and the base give non-empty unions without arrays, the
   * field is plain across the merge and its union is theirs.
   */
  lemma OnePartPlain<N(!new)>(d: Definition<N>, ls: seq<Definition<N>>, j: int, k: N, f: string)
    requires 0 <= j < |ls| && Gives(ls, j, k, f)
    requires forall i :: 0 <= i < |ls| && i != j ==> !Gives(ls, i, k, f)
    requires ls[j].nodes[k][f] != {} && NoArrays(ls[j].nodes[k][f])
    requires k in d.nodes && f in d.nodes[k] ==> d.nodes[k][f] != {} && NoArrays(d.nodes[k][f])
    ensures PlainField([d] + ls, k, f)
    ensures FieldUnion([d] + ls, k, f) == BaseField(d, k, f) + ls[j].nodes[k][f]
  {
    var parts := [d] + ls;
    FieldFromOnePart(d, ls, j, k, f);
    assert parts[0] == d && parts[j + 1] == ls[j];
    assert Gives(parts, j + 1, k, f);
  }

  /**
   * When contribution `j` is the only contribution that gives field `f` to
   * kind `k`, and it and the base give arrays only, the field is a list field
   * of the merge and its union is theirs.
   */
  lemma OnePartList<N(!new)>(d: Definition<N>, ls: seq<Definition<N>>, j: int, k: N, f: string)
    requires 0 <= j < |ls| && Gives(ls, j, k, f)
    requires forall i :: 0 <= i < |ls| && i != j ==> !Gives(ls, i, k, f)
    requires AllArrays(ls[j].nodes[k][f]) && AllArrays(BaseField(d, k, f))
    ensures ListField([d] + ls, k, f)
    ensures FieldUnion([d] + ls, k, f) == BaseField(d, k, f) + ls[j].nodes[k][f]
  {
    var parts := [d] + ls;
    FieldFromOnePart(d, ls, j, k, f);
    assert parts[0] == d && parts[j + 1] == ls[j];
    assert Gives(parts, j + 1, k, f);
  }

  /** A field that neither the base nor any contribution gives is not in the merge. */
  lemma FieldFromNoPart<N(!new)>(d: Definition<N>, ls: seq<Definition<N>>, k: N, f: string)
    requires !(k in d.nodes && f in d.nodes[k])
    requires forall i :: 0 <= i < |ls| ==> !Gives(ls, i, k, f)
    ensures !(k in Combine([d] + ls).nodes && f in Combine([d] + ls).nodes[k])
  {
    var parts := [d] + ls;
    CombineField(parts, k, f);
    forall i | Gives(parts, i, k, f) ensures false {
      if i > 0 {
        assert parts[i] == ls[i - 1];
        assert Gives(ls, i - 1, k, f);
      }
    }
  }
}
