/**
 * A value-level model of the schema algebra of lib/types/ast-definer.d.ts.
 *
 * The original computes everything with TypeScript conditional and mapped
 * types at compile time.  Here a definition is an ordinary value: a map from
 * node-kind name to the node's field map, plus the declared statement kinds
 * and expression kinds.  Names are drawn from an arbitrary type `N` (the
 * string literal types of the original); the three names that the original
 * expands specially, "Node", "Statement" and "Expression", are the
 * constructors `AnyNode`, `AnyStatement` and `AnyExpression` of `TypeName`.
 *
 * A field's declared type is a union, modelled as the set of its members:
 * `Def.NodeRef<"X">` is `Plain(Ref(Kind(X)))`, `Def.NodeRef<"X">[]` is
 * `ArrayOf({Ref(Kind(X))})`, and `Def.NodeRef<"X"> | null` is a set of two.
 */
module Definer {

  datatype Option<+T> = None | Some(value: T)

  /** The argument of `Def.NodeRef<…>`: a kind name or one of the three expanded names. */
  datatype TypeName<N(==)> = Kind(kind: N) | AnyNode | AnyStatement | AnyExpression

  /** A union member of a field type below the array level. */
  datatype Scalar<N(==)> =
    | Ref(target: TypeName<N>)   // Def.NodeRef<target>
    | TagLit(tag: N)             // a string literal type naming a node tag, as in `type: "Literal"`
    | Str(literal: string)       // any other string literal type, such as "=" or "init"
    | Bool(truth: bool)          // the literal type `true` or `false`
    | Null
    | Undefined
    | Opaque(name: string)       // string, number, boolean, RegExp, Comment, Token, object shapes

  /** A union member of a field type: a scalar, or an array whose element type is a union. */
  datatype Member<N(==)> = Plain(scalar: Scalar<N>) | ArrayOf(elements: set<Scalar<N>>)

  /** A field's declared type, as the set of members of its union. */
  type FieldType<N(==)> = set<Member<N>>

  /** The field map of one node kind. */
  type Body<N(==)> = map<string, FieldType<N>>

  /** `ASTDefinition`: the nodes map plus the statement and expression kind sets. */
  datatype Definition<N(==)> = Definition(
    nodes: map<N, Body<N>>,
    statementType: set<N>,
    expressionType: set<N>)

  /** `ASTEnhancement = Partial<ASTDefinition>`: every part may be missing. */
  datatype Enhancement<N(==)> = Enhancement(
    nodes: Option<map<N, Body<N>>>,
    statementType: Option<set<N>>,
    expressionType: Option<set<N>>)

  //----------------------------------------------------------------------------
  // NormalizedType
  //----------------------------------------------------------------------------

  /**
   * `NormalizedType<name>`: `AnyNode` is every kind, `AnyStatement` and
   * `AnyExpression` are the declared sets, and a kind name is itself; the
   * result is always intersected with the defined kinds, so a name that no
   * kind defines gives nothing (and no error).
   */
  function NormalizedType<N(==,!new)>(d: Definition<N>, name: TypeName<N>): (r: set<N>)
    ensures r <= d.nodes.Keys
    ensures name == AnyNode ==> r == d.nodes.Keys
    ensures name == AnyStatement ==> r == d.statementType * d.nodes.Keys
    ensures name == AnyExpression ==> r == d.expressionType * d.nodes.Keys
    ensures name.Kind? && name.kind in d.nodes ==> r == {name.kind}
    ensures name.Kind? && name.kind !in d.nodes ==> r == {}
  {
    d.nodes.Keys *
      match name
      case AnyNode => d.nodes.Keys
      case AnyStatement => d.statementType
      case AnyExpression => d.expressionType
      case Kind(k) => {k}
  }

  /** Whether kind `k` belongs to the union of `names` once each name is normalized. */
  predicate Admits<N(==,!new)>(d: Definition<N>, names: set<TypeName<N>>, k: N)
  {
    && k in d.nodes
    && (|| AnyNode in names
        || Kind(k) in names
        || (AnyStatement in names && k in d.statementType)
        || (AnyExpression in names && k in d.expressionType))
  }

  /** `NormalizedType` applied to a union of names, distributing over the union. */
  function NormalizedUnion<N(==,!new)>(d: Definition<N>, names: set<TypeName<N>>): (r: set<N>)
    ensures r <= d.nodes.Keys
    ensures forall k :: k in r <==> Admits(d, names, k)
  {
    var r := set n, k | n in names && k in NormalizedType(d, n) :: k;
    assert forall k :: Admits(d, names, k) ==> k in r by {
      forall k | Admits(d, names, k) ensures k in r {
        if AnyNode in names {
          assert k in NormalizedType(d, AnyNode);
        } else if Kind(k) in names {
          assert k in NormalizedType(d, Kind(k));
        } else if AnyStatement in names && k in d.statementType {
          assert k in NormalizedType(d, AnyStatement);
        } else {
          assert k in NormalizedType(d, AnyExpression);
        }
      }
    }
    r
  }

  //----------------------------------------------------------------------------
  // ChildType, ParentType, NeverToNull
  //----------------------------------------------------------------------------

  /** The targets of every `Def.NodeRef` in a field type, on its own or as an array element. */
  function Refs<N(==,!new)>(t: FieldType<N>): set<TypeName<N>>
  {
    (set m | m in t && m.Plain? && m.scalar.Ref? :: m.scalar.target) +
    (set m, s | m in t && m.ArrayOf? && s in m.elements && s.Ref? :: s.target)
  }

  /** The targets referenced by any field of a node body. */
  function BodyRefs<N(==,!new)>(b: Body<N>): set<TypeName<N>>
  {
    set f, n | f in b && n in Refs(b[f]) :: n
  }

  /** Whether a member refers to `n`, on its own or as an array element. */
  predicate MemberMentions<N(==,!new)>(m: Member<N>, n: TypeName<N>)
  {
    match m
    case Plain(s) => s == Ref(n)
    case ArrayOf(es) => Ref(n) in es
  }

  /** Whether some member of a field type refers to `n`. */
  predicate FieldMentions<N(==,!new)>(t: FieldType<N>, n: TypeName<N>)
  {
    exists m :: m in t && MemberMentions(m, n)
  }

  /** Whether some field of a body refers to `n`. */
  predicate Mentions<N(==,!new)>(b: Body<N>, n: TypeName<N>)
  {
    exists f :: f in b && FieldMentions(b[f], n)
  }

  /** `ChildType<k>`: the normalized kinds that one level of fields of `k` may hold. */
  function ChildType<N(==,!new)>(d: Definition<N>, k: N): (r: set<N>)
    ensures r <= d.nodes.Keys
    ensures k !in d.nodes ==> r == {}
  {
    if k in d.nodes then NormalizedUnion(d, BodyRefs(d.nodes[k])) else {}
  }

  /** `ParentType<k>`: every defined kind whose children include `k`. */
  function ParentType<N(==,!new)>(d: Definition<N>, k: N): (r: set<N>)
    ensures r <= d.nodes.Keys
    ensures forall p :: p in r <==> k in ChildType(d, p)
    ensures k !in d.nodes ==> r == {}
  {
    set p | p in d.nodes && k in ChildType(d, p)
  }

  /**
   * The type of a node's `parent` property: `NeverToNull` of the node types
   * that the parent kinds resolve to, where `None` stands for `null`.
   */
  function ParentProperty<N(==,!new)>(d: Definition<N>, k: N): (r: Option<set<N>>)
    ensures r.None? <==> ParentType(d, k) == {}
    ensures r.Some? ==> r.value == ParentType(d, k)
  {
    var parents := ParentType(d, k);
    var resolved := NormalizedUnion(d, set p | p in parents :: Kind(p));
    assert resolved == parents by {
      forall p | p in parents ensures p in resolved {
        assert Kind(p) in (set p | p in parents :: Kind(p));
      }
    }
    if resolved == {} then None else Some(resolved)
  }

  //----------------------------------------------------------------------------
  // Node, ExtractNode
  //----------------------------------------------------------------------------

  /**
   * Whether a scalar is a string type that names no node tag: a string
   * literal other than a tag literal, or the wide type `string` itself.
   * (Tag literals and other string literals are disjoint by construction.)
   */
  predicate OtherString<N(==)>(s: Scalar<N>)
  {
    s.Str? || (s.Opaque? && s.name == "string")
  }

  /**
   * The tag names of a node of kind `k`.  A member of a declared `type` that
   * is a tag literal contributes that tag; a member that is no string type at
   * all contributes the kind name; the other string types are kept apart, in
   * `StringTags`.  Without a declared `type` the tag is the kind name.
   */
  function Tag<N(==,!new)>(k: N, body: Body<N>): (r: set<N>)
    ensures "type" !in body ==> r == {k}
  {
    if "type" !in body then {k}
    else
      (set m | m in body["type"] && m.Plain? && m.scalar.TagLit? :: m.scalar.tag) +
      (if exists m :: m in body["type"] && !(m.Plain? && (m.scalar.TagLit? || OtherString(m.scalar))) then {k} else {})
  }

  /**
   * The members of a declared `type` that stay in the tag as they are,
   * although they name no node tag: other string literals and `string`.
   */
  function StringTags<N(==,!new)>(body: Body<N>): set<Scalar<N>>
  {
    if "type" !in body then {}
    else set m | m in body["type"] && m.Plain? && OtherString(m.scalar) :: m.scalar
  }

  /** Resolve the references among a set of array elements to defined kinds. */
  function ResolveScalars<N(==,!new)>(d: Definition<N>, es: set<Scalar<N>>): set<Scalar<N>>
  {
    (set s | s in es && !s.Ref?) +
    (set s, k | s in es && s.Ref? && k in NormalizedType(d, s.target) :: Ref(Kind(k)))
  }

  /**
   * `ResolvedNodeRef`: every reference `Ref(n)` becomes one `Ref(Kind(k))` per
   * kind `k` that `n` normalizes to; all other members stay as they are.
   */
  function ResolveField<N(==,!new)>(d: Definition<N>, t: FieldType<N>): FieldType<N>
  {
    (set m | m in t && m.Plain? && !m.scalar.Ref?) +
    (set m, k | m in t && m.Plain? && m.scalar.Ref? && k in NormalizedType(d, m.scalar.target) :: Plain(Ref(Kind(k)))) +
    (set m | m in t && m.ArrayOf? :: ArrayOf(ResolveScalars(d, m.elements)))
  }

  /**
   * A resolved node: its tag (tag names and other string types), its declared fields other than `type` with
   * references resolved, and the type of its `parent` property.  The
   * properties `range` and `loc` carry opaque values and are left implicit.
   */
  datatype Node<N(==)> = Node(
    tag: set<N>,
    stringTag: set<Scalar<N>>,
    fields: map<string, FieldType<N>>,
    parent: Option<set<N>>)

  /** The property names of a resolved node. */
  function PropertyNames<N(==,!new)>(n: Node<N>): set<string>
  {
    {"type", "range", "loc", "parent"} + n.fields.Keys
  }

  /** `Node<k>`; `None` for a kind that is not defined (`unknown` in the original). */
  function ResolveNode<N(==,!new)>(d: Definition<N>, k: N): (r: Option<Node<N>>)
    ensures r.Some? <==> k in d.nodes
    ensures r.Some? ==> PropertyNames(r.value) == {"type", "range", "loc", "parent"} + d.nodes[k].Keys
    ensures r.Some? ==> r.value.tag == Tag(k, d.nodes[k]) && r.value.stringTag == StringTags(d.nodes[k])
    ensures r.Some? ==> r.value.parent == ParentProperty(d, k)
    ensures r.Some? ==> r.value.fields.Keys == d.nodes[k].Keys - {"type"}
    ensures r.Some? ==> forall f :: f in d.nodes[k] && f != "type" ==>
      f in r.value.fields && r.value.fields[f] == ResolveField(d, d.nodes[k][f])
  {
    if k !in d.nodes then None
    else
      var body := d.nodes[k];
      Some(Node(Tag(k, body), StringTags(body),
                map f | f in body && f != "type" :: ResolveField(d, body[f]),
                ParentProperty(d, k)))
  }

  /**
   * `ExtractNode<name>`: for the three expanded names the normalized kinds;
   * for any other name every defined kind whose node is assignable to
   * `{ type: name }`, that is, whose tag union lies within `{name}` and holds
   * no other string type.
   */
  function ExtractNode<N(==,!new)>(d: Definition<N>, name: TypeName<N>): (r: set<N>)
    ensures r <= d.nodes.Keys
    ensures !name.Kind? ==> r == NormalizedType(d, name)
  {
    if name.Kind? then set k | k in d.nodes && Tag(k, d.nodes[k]) <= {name.kind} && StringTags(d.nodes[k]) == {}
    else NormalizedType(d, name)
  }

  //----------------------------------------------------------------------------
  // Merging: UniteArray, MergeNodeProperties, MergeNodes, ExtendsRec, Extends
  //----------------------------------------------------------------------------

  /** The elements of every array member of a field type. */
  function ArrayElements<N(==,!new)>(t: FieldType<N>): set<Scalar<N>>
  {
    set m, s | m in t && m.ArrayOf? && s in m.elements :: s
  }

  /** The members of a field type that are not arrays. */
  function Plains<N(==,!new)>(t: FieldType<N>): set<Scalar<N>>
  {
    set m | m in t && m.Plain? :: m.scalar
  }

  predicate AllArrays<N(==,!new)>(t: FieldType<N>)
  {
    forall m :: m in t ==> m.ArrayOf?
  }

  /**
   * `UniteArray`: a union made only of arrays (`A[] | B[]`) becomes a single
   * array of the united elements (`(A | B)[]`); any other union is kept.  As
   * in the original, the empty union counts as "only arrays".
   */
  function UniteArray<N(==,!new)>(t: FieldType<N>): (r: FieldType<N>)
    ensures Plains(r) == Plains(t) && ArrayElements(r) == ArrayElements(t)
    ensures Refs(r) == Refs(t)
    ensures AllArrays(t) <==> (AllArrays(r) && |r| == 1)
  {
    if AllArrays(t) then
      var r := {ArrayOf(ArrayElements(t))};
      assert ArrayElements(r) == ArrayElements(t);
      r
    else t
  }

  /** `Prop<E, …, {}, never>`: what an enhancement contributes, missing parts being empty. */
  function Contribution<N(==,!new)>(e: Enhancement<N>): (r: Definition<N>)
    ensures e.nodes.None? ==> r.nodes == map[]
    ensures e.statementType.None? ==> r.statementType == {}
    ensures e.expressionType.None? ==> r.expressionType == {}
  {
    Definition(
      if e.nodes.Some? then e.nodes.value else map[],
      if e.statementType.Some? then e.statementType.value else {},
      if e.expressionType.Some? then e.expressionType.value else {})
  }

  function Contributions<N(==,!new)>(es: seq<Enhancement<N>>): (r: seq<Definition<N>>)
    ensures |r| == |es|
    ensures forall i :: 0 <= i < |es| ==> r[i] == Contribution(es[i])
  {
    seq(|es|, i requires 0 <= i < |es| => Contribution(es[i]))
  }

  /** Every kind that some part defines. */
  function KindsOf<N(==,!new)>(parts: seq<Definition<N>>): set<N>
  {
    set i, k | 0 <= i < |parts| && k in parts[i].nodes :: k
  }

  /** Every field name that some part gives to kind `k`. */
  function FieldsOf<N(==,!new)>(parts: seq<Definition<N>>, k: N): set<string>
  {
    set i, f | 0 <= i < |parts| && k in parts[i].nodes && f in parts[i].nodes[k] :: f
  }

  /** The union of the types that the parts give to field `f` of kind `k`. */
  function FieldUnion<N(==,!new)>(parts: seq<Definition<N>>, k: N, f: string): FieldType<N>
  {
    set i, m | 0 <= i < |parts| && k in parts[i].nodes && f in parts[i].nodes[k] && m in parts[i].nodes[k][f] :: m
  }

  function StatementsOf<N(==,!new)>(parts: seq<Definition<N>>): set<N>
  {
    set i, s | 0 <= i < |parts| && s in parts[i].statementType :: s
  }

  function ExpressionsOf<N(==,!new)>(parts: seq<Definition<N>>): set<N>
  {
    set i, s | 0 <= i < |parts| && s in parts[i].expressionType :: s
  }

  /** `MergeNodeProperties`: the field names are united and each field's types are united. */
  function MergeNodeProperties<N(==,!new)>(parts: seq<Definition<N>>, k: N): Body<N>
  {
    map f | f in FieldsOf(parts, k) :: UniteArray(FieldUnion(parts, k, f))
  }

  /** `MergeNodes`: the kinds are united and each kind's bodies are merged. */
  function MergeNodes<N(==,!new)>(parts: seq<Definition<N>>): map<N, Body<N>>
  {
    map k | k in KindsOf(parts) :: MergeNodeProperties(parts, k)
  }

  /** One step of `ExtendsRec`: a base and a chunk of contributions merged at once. */
  function Combine<N(==,!new)>(parts: seq<Definition<N>>): Definition<N>
  {
    Definition(MergeNodes(parts), StatementsOf(parts), ExpressionsOf(parts))
  }

  /**
   * `ExtendsRec` with the chunk width as a parameter: merge the base with the
   * next `width` enhancements at once, and go on while any remain.
   */
  function ExtendsBy<N(==,!new)>(d: Definition<N>, layers: seq<Enhancement<N>>, width: nat): Definition<N>
    requires width >= 1
    decreases |layers|
  {
    var n := if |layers| < width then |layers| else width;
    var merged := Combine([d] + Contributions(layers[..n]));
    if |layers| <= width then merged else ExtendsBy(merged, layers[width..], width)
  }

  /** `Extends<D, [E0, E1, …]>`: four enhancements per step, as in the original. */
  function Extends<N(==,!new)>(d: Definition<N>, layers: seq<Enhancement<N>>): Definition<N>
  {
    ExtendsBy(d, layers, 4)
  }

  /** The empty enhancement `{}`. */
  function NoEnhancement<N(==,!new)>(): Enhancement<N>
  {
    Enhancement(None, None, None)
  }

  /** `Extends<D, E>` for a single enhancement: it is padded with three `{}`. */
  function ExtendsOne<N(==,!new)>(d: Definition<N>, e: Enhancement<N>): Definition<N>
  {
    var empty := Contribution(NoEnhancement());
    Combine([d, Contribution(e), empty, empty, empty])
  }
}
