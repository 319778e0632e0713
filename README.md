# ESTree schema algebra, modelled in Dafny

The linter describes its syntax trees (ESTree-shaped JavaScript ASTs) with a
small schema algebra that TypeScript evaluates at compile time:

- `lib/types/ast-definer.d.ts` defines the algebra.
  - A *definition* maps each node kind to its field map, and declares which
    kinds are statements and which are expressions.
  - `ChildType` and `ParentType` compute the one-level child and parent
    relations. The `parent` property becomes `null` for a kind nobody
    refers to.
  - `Node` resolves a kind to a node with a `type` tag and with every
    `NodeRef` in its fields resolved to the kinds it names. The tag is the
    declared `type` where that is a string type, and the kind name otherwise. `ExtractNode` selects
    every kind that carries a given tag.
  - `Extends` folds a list of enhancement layers into a base definition,
    four layers per step. It unites kinds, field names and field types,
    and `UniteArray` collapses a union of arrays into one array.
- `lib/types/ast-es5.d.ts` is the base definition, following ECMA-262 5.1.
- `lib/types/ast-es2015.d.ts` adds eleven layers for ECMA-262 6th edition
  features (arrow functions, classes, destructuring, iteration, lexical
  bindings, modules, object literal extensions, regular expressions, spread,
  template literals) and folds them onto the ES5 definition.

The model restates this algebra on ordinary values.

- A field's declared type is the set of the members of its union. A member
  is a plain scalar, or an array whose element type is a set of scalars.
- A scalar is a reference to a kind or to `Node`/`Statement`/`Expression`,
  a tag literal, another string literal, `true`/`false`, `null`,
  `undefined`, or an opaque primitive.
- `Definer` holds the datatypes and the operations.
- `Relations` and `MergeLaws` prove the laws of the operations for any
  definition.
- `Es5`, `Grammar` and `Es2015` hold the two grammars as constants.
- `Es5Facts`, `Es5Fields`, `Es5Counts`, `FlatMerge`, `Es2015Refs`,
  `Es2015Fold` and `Es2015Facts` prove what the concrete grammars encode.

Choices made where the code allows more than one reading:

- Every `NodeRef` in a field counts as a child, whether it stands alone,
  sits in a union with `null`, or is an array element.
- Conflicting `type` tags are united, never rejected. A reference to an
  undefined kind is dropped by the intersection with the defined kinds.
  Neither case reports an error, as in the code.
- `lib/types/ast-es5.d.ts` declares five kinds tagged `"Literal"`
  (`BooleanLiteral`, `NullLiteral`, `NumberLiteral`, `RegExpLiteral`,
  `StringLiteral`).
- A declared `type` member that is a string type but no tag literal (another
  string literal, or `string` itself) stays in the tag as it is. Such a
  member is kept apart from the tag names, in `StringTags`, and no tag name
  selects a kind that has one.
- The ES5 `VariableDeclaration` has no `kind` field. The LexicalBinding
  layer adds one rather than changing an existing one.

## Model

| member | source | states |
|---|---|---|
| Definer.NormalizedType | lib/types/ast-definer.d.ts:50-58 | The result is always a subset of the defined kinds. `Node` gives every kind. `Statement` and `Expression` give the declared sets cut down to defined kinds. A defined kind gives itself; an undefined name gives nothing, with no error. |
| Definer.NormalizedUnion | lib/types/ast-definer.d.ts:50-58 | Normalizing a union of names admits kind `k` exactly when `k` is defined and some name in the union admits it; the result lies within the defined kinds. |
| Definer.ChildType | lib/types/ast-definer.d.ts:95-107 | The children of a kind are defined kinds; an undefined kind has none. |
| Definer.ParentType | lib/types/ast-definer.d.ts:113-116 | `p` is a parent of `k` exactly when `k` is a child of `p`; parents are defined kinds; an undefined kind has none. |
| Definer.ParentProperty | lib/types/ast-definer.d.ts:118-141 | The `parent` property is `null` exactly when the kind has no parents; otherwise it ranges over exactly the parent kinds. |
| Definer.Tag | lib/types/ast-definer.d.ts:153-158 | A kind without a declared `type` is tagged with its own name. |
| Definer.ResolveNode | lib/types/ast-definer.d.ts:143-162 | A node exists exactly for a defined kind. Its properties are `type`, `range`, `loc`, `parent` and the body's fields. Its tag is the kind's tag names plus its other string types, and its `parent` is the kind's `parent` property. Each field other than `type` is present, with its references resolved. |
| Definer.ExtractNode | lib/types/ast-definer.d.ts:164-177 | The selected kinds are defined kinds; for `Node`, `Statement` and `Expression` they are the normalized kinds. |
| Definer.StringTags | lib/types/ast-definer.d.ts:150-158 | The members of a declared `type` that are string types but not tag literals. It has no ensures of its own. Definer.ResolveNode puts it in the node's tag, and Relations.StringTagSelectsNothing and Relations.WideStringTag state its laws. |
| Definer.Refs | lib/types/ast-definer.d.ts:95-104 | The names a field's type refers to. It has no ensures of its own. Relations.RefsAreMentions states that these are exactly the names some member refers to. |
| Definer.BodyRefs | lib/types/ast-definer.d.ts:95-104 | The names a body refers to. It has no ensures of its own. Relations.BodyRefsAreMentions states that these are exactly the names some field mentions. |
| Definer.ResolveScalars | lib/types/ast-definer.d.ts:72-80 | Resolves the element types of one array. It has no ensures of its own. Relations.ResolvedElements states its laws. |
| Definer.ResolveField | lib/types/ast-definer.d.ts:83-90 | Resolves every reference in a field's type. It has no ensures of its own. Definer.ResolveNode, Relations.ResolvedPlainMembers and Relations.ResolvedArrays state its laws. |
| Relations.ResolvedPlainMembers | lib/types/ast-definer.d.ts:72-90 | In a resolved field, `NodeRef<n>` becomes exactly the defined kinds that `n` normalizes to. Every other plain member is kept, and every resolved reference names a defined kind. |
| Relations.ResolvedElements | lib/types/ast-definer.d.ts:72-90 | The same holds for the elements of an array member: references become exactly the normalized defined kinds, and other elements are kept. |
| Relations.ResolvedArrays | lib/types/ast-definer.d.ts:83-90 | An array member of a resolved field is exactly an array member of the declared field with its elements resolved. |
| Definer.UniteArray | lib/types/ast-definer.d.ts:201-204 | Uniting keeps every non-array member, every array element and every reference. A union of arrays only (the empty union included) becomes exactly one array. |
| Relations.RefsAreMentions | lib/types/ast-definer.d.ts:95-104 | The references collected from a field are exactly the names some member of it refers to, alone or as an array element. |
| Relations.BodyRefsAreMentions | lib/types/ast-definer.d.ts:95-104 | The references of a body are exactly the names that some field mentions. |
| Relations.ChildTypeByMentions | lib/types/ast-definer.d.ts:95-107 | `c` is a child of `p` exactly when both are defined and some field of `p` refers to `Node`, to `c` by name, or to `Statement`/`Expression` while `c` is one. |
| Relations.ParentChildRoundTrip | lib/types/ast-definer.d.ts:95-116 | Round trip: `p` is a parent of `k` exactly when `k` is a child of `p`, and both are then defined. |
| Relations.UnreferencedKindIsRoot | lib/types/ast-definer.d.ts:113-141 | A kind that no field names, directly or through `Node`, `Statement` or `Expression`, has a `null` parent. |
| Relations.ExactParents | lib/types/ast-definer.d.ts:95-141 | For a kind that is neither statement nor expression, with no field naming `Node`: the parents are exactly the kinds naming it, and `parent` ranges over them. |
| Relations.DeclaredTag | lib/types/ast-definer.d.ts:153-158 | A declared `type` of a single tag literal is the kind's tag, with no other string type. |
| Relations.StringTagSelectsNothing | lib/types/ast-definer.d.ts:150-177 | A declared `type` member that is another string literal or `string` stays in the tag, and no tag name then selects the kind. |
| Relations.WideStringTag | lib/types/ast-definer.d.ts:150-177 | A `type` declared as `string` gives the tag `string`: no tag name and no kind-name fallback, and no tag name selects the kind. |
| Relations.ExtractNodeBySingleTag | lib/types/ast-definer.d.ts:172-177 | For a kind with a single tag name and no other string type, a tag name selects it exactly when that tag is the name. |
| Relations.ExtractNodeByTag | lib/types/ast-definer.d.ts:172-177 | A kind tagged `tk` alone, with no other string type, is selected by tag name `t` exactly when it is defined and `tk` is `t`. |
| Relations.ConflictingTagsSelectNothing | lib/types/ast-definer.d.ts:150-177 | Two different tag literals on one kind are united, not rejected; a query for either tag leaves that kind out. |
| Relations.AdmittedKinds | lib/types/ast-definer.d.ts:50-58 | A union of defined kind names normalizes to exactly those kinds. |
| Definer.MergeNodeProperties | lib/types/ast-definer.d.ts:209-217 | Merges one kind's field maps from all parts. It has no ensures of its own. MergeLaws.CombineContents, CombineField and CombineFieldValue state its laws. |
| Definer.MergeNodes | lib/types/ast-definer.d.ts:222-230 | Merges the node maps of all parts, kind by kind. It has no ensures of its own. MergeLaws.CombineContents, CombineMentions and CombineOrderIrrelevant state its laws. |
| Definer.Combine | lib/types/ast-definer.d.ts:236-262 | One step of the fold: merges the nodes and unites the statement and expression sets of all parts. It has no ensures of its own. MergeLaws.CombineSets, CombineKindSets, CombineField and CombineNested state its laws. |
| Definer.ExtendsBy | lib/types/ast-definer.d.ts:263-275 | The recursive fold, with the chunk width as a parameter. It has no ensures of its own. MergeLaws.ExtendsByAgreesWithFlat, UniformFieldExact and ChunkWidthIrrelevant state its laws, and FoldStep and FoldLast unfold it. |
| Definer.Extends | lib/types/ast-definer.d.ts:277-290 | The fold of a list of enhancements, four per step. It has no ensures of its own. MergeLaws.FoldTwoFlat, MixedFieldDependsOnChunking and the ES2015 lemmas state what it gives. |
| Definer.ExtendsOne | lib/types/ast-definer.d.ts:277-292 | A single enhancement padded with three empty ones. It has no ensures of its own. MergeLaws.ExtendsOneIsFold ties it to the one-element list. |
| MergeLaws.UniteArrayIdempotent | lib/types/ast-definer.d.ts:204 | Uniting arrays a second time changes nothing. |
| MergeLaws.UniteTwoArrays | lib/types/ast-definer.d.ts:201-204 | `A[] \| B[]` becomes `(A \| B)[]`. |
| MergeLaws.UniteKeepsPlain | lib/types/ast-definer.d.ts:204 | A union with a non-array member is kept as it is. |
| MergeLaws.CollectSplit | lib/types/ast-definer.d.ts:222-255 | The kinds and kind sets collected from a concatenation of parts are those of each half, united. |
| MergeLaws.CombineContents | lib/types/ast-definer.d.ts:209-230 | A merged kind's fields are the fields its parts give. Each merged field holds exactly the contributed non-array members and array elements. |
| MergeLaws.CombineSets | lib/types/ast-definer.d.ts:243-262 | The kinds, statements and expressions of a merge are those its parts collect. |
| MergeLaws.CombineField | lib/types/ast-definer.d.ts:209-230 | A field is in a merge exactly when some part gives it; a missing part or field contributes nothing. |
| MergeLaws.CombineKindSets | lib/types/ast-definer.d.ts:244-255 | A kind is a merged statement (expression) exactly when some part declares it one. |
| MergeLaws.CombineFieldAllLists | lib/types/ast-definer.d.ts:204-217 | When every contribution to a field is arrays only, the merged field is one array of all their elements. |
| MergeLaws.CombineFieldNoLists | lib/types/ast-definer.d.ts:204-217 | When no contribution to a field holds an array and one is non-empty, the merged field is the plain union. |
| MergeLaws.CombineMentions | lib/types/ast-definer.d.ts:209-230 | A merged kind refers to a name exactly when one part's body for that kind does. |
| MergeLaws.AgreeSameRelations | lib/types/ast-definer.d.ts:95-141 | Definitions with the same kinds, fields, members and kind sets have the same children, parents and `parent` property. |
| MergeLaws.CombineNested | lib/types/ast-definer.d.ts:263-275 | Merging a merge with further parts agrees with merging all parts at once. |
| MergeLaws.ExtendsByAgreesWithFlat | lib/types/ast-definer.d.ts:236-275 | Whatever the chunk width, the fold agrees with merging the base and every contribution at once. |
| MergeLaws.ChunkWidthIrrelevant | lib/types/ast-definer.d.ts:232-275 | Any two chunk widths give agreeing definitions with the same `parent` properties: four per step and one per step coincide up to array grouping. |
| MergeLaws.CombineOrderIrrelevant | lib/types/ast-definer.d.ts:209-230 | Two lists of parts holding the same definitions, in any order and multiplicity, merge to the same definition. |
| MergeLaws.EmptyPartsAddNothing | lib/types/ast-definer.d.ts:280-292 | Padding with empty enhancements `{}` does not change a merge. |
| MergeLaws.ExtendsOneIsFold | lib/types/ast-definer.d.ts:280-292 | A single enhancement behaves as the one-element list. |
| MergeLaws.FoldStep | lib/types/ast-definer.d.ts:263-275 | An unfolding lemma for `ExtendsBy`, used by the other fold proofs: with more layers than the width left, the fold is one merge of the first chunk into the base and then the fold of the rest. |
| MergeLaws.FoldLast | lib/types/ast-definer.d.ts:263-275 | An unfolding lemma for `ExtendsBy`, used by the other fold proofs: with at most the width left, the fold is one merge of the base with all of them. |
| MergeLaws.UniformFieldExact | lib/types/ast-definer.d.ts:236-275 | On a field given as arrays only by every part, or without arrays by every part, the chunked fold equals the flat merge exactly. |
| MergeLaws.ListFieldMerged | lib/types/ast-definer.d.ts:204-217 | The flat merge of an all-array field is one array of every contributed element. |
| MergeLaws.PlainFieldMerged | lib/types/ast-definer.d.ts:204-217 | The flat merge of an array-free field is the union of the contributions. |
| MergeLaws.MixedFieldDependsOnChunking | lib/types/ast-definer.d.ts:232-275 | A field mixing arrays and other members across layers shows the grouping: one per step gives `(A \| B)[] \| null`, four per step `A[] \| B[] \| null`, and the two results differ. |
| MergeLaws.OneLayerPerStep | lib/types/ast-definer.d.ts:236-275 | One layer per step unites the first two arrays before the plain member arrives. |
| MergeLaws.FourLayersPerStep | lib/types/ast-definer.d.ts:236-275 | Four layers per step keep both arrays beside the plain member. |
| MergeLaws.FoldTwoFlat | lib/types/ast-definer.d.ts:280-292 | Two layers, four per step, are one merge of the base with both. |
| MergeLaws.FoldTwoStepwise | lib/types/ast-definer.d.ts:236-275 | Two layers, one per step, merge the base with the first, then the result with the second. |
| MergeLaws.CombineFieldValue | lib/types/ast-definer.d.ts:209-217 | An unfolding lemma for `MergeNodeProperties`: a given field's merged value is `UniteArray` of the union of the contributions. |
| FlatMerge.FlatMentions | lib/types/ast-definer.d.ts:209-230 | A reference of a merged kind comes from the base or from one contribution that lists it. |
| FlatMerge.FlatRefersToNoNode | lib/types/ast-definer.d.ts:209-230 | No merged kind refers to `Node` when neither the base nor any contribution does. |
| FlatMerge.FlatParents | lib/types/ast-definer.d.ts:113-230 | A kind that only contribution `j` names, at the kinds `qs`, has exactly `qs` as parents after the merge. |
| FlatMerge.FlatRoot | lib/types/ast-definer.d.ts:113-230 | A merged kind that nothing names, and that is neither statement nor expression, has no parents. |
| FlatMerge.FieldFromOnePart | lib/types/ast-definer.d.ts:209-217 | When one contribution alone gives a field, its givers are that part and possibly the base, and the field's union is theirs. |
| FlatMerge.FieldFromBase | lib/types/ast-definer.d.ts:209-217 | When no contribution gives a field, the merge has the base's field. |
| FlatMerge.OnePartPlain | lib/types/ast-definer.d.ts:204-217 | One contribution widening an array-free field gives the union of the base's and its members. |
| FlatMerge.OnePartList | lib/types/ast-definer.d.ts:204-217 | One contribution extending an array field gives a list field with both parts' members. |
| FlatMerge.FieldFromNoPart | lib/types/ast-definer.d.ts:209-230 | A field that neither the base nor any contribution gives is not in the merge. |
| Es5.Es5Body | lib/types/ast-es5.d.ts:11-241 | The field map of each ES5 kind. The constant `Es5.ES5` maps every kind that `Es5.GroupOf` places to this map, together with the declared statement and expression sets. It has no ensures of its own. Es5Fields and Es5Facts state what the table holds. |
| Es2015.ArrowFunctionNodes | lib/types/ast-es2015.d.ts:12-30 | The kinds and fields that the layer for arrow functions adds or extends; it is the node map of the constant `Es2015.ArrowFunctionLayer`. It has no ensures of its own. Es2015Refs and Es2015Facts state what the fold makes of it. |
| Es2015.ClassNodes | lib/types/ast-es2015.d.ts:32-101 | The kinds and fields that the layer for classes adds or extends; it is the node map of the constant `Es2015.ClassLayer`. It has no ensures of its own. Es2015Refs and Es2015Facts state what the fold makes of it. |
| Es2015.DestructuringAssignmentNodes | lib/types/ast-es2015.d.ts:103-201 | The kinds and fields that the layer for destructuring assignment patterns adds or extends; it is the node map of the constant `Es2015.DestructuringAssignmentLayer`. It has no ensures of its own. Es2015Refs and Es2015Facts state what the fold makes of it. |
| Es2015.DestructuringBindingNodes | lib/types/ast-es2015.d.ts:203-304 | The kinds and fields that the layer for destructuring binding patterns adds or extends; it is the node map of the constant `Es2015.DestructuringBindingLayer`. It has no ensures of its own. Es2015Refs and Es2015Facts state what the fold makes of it. |
| Es2015.IterationNodes | lib/types/ast-es2015.d.ts:306-337 | The kinds and fields that the layer for `for`-`of`, generators and `yield` adds or extends; it is the node map of the constant `Es2015.IterationLayer`. It has no ensures of its own. Es2015Refs and Es2015Facts state what the fold makes of it. |
| Es2015.LexicalBindingNodes | lib/types/ast-es2015.d.ts:339-346 | The kinds and fields that the layer for `let` and `const` declarations adds or extends; it is the node map of the constant `Es2015.LexicalBindingLayer`. It has no ensures of its own. Es2015Refs and Es2015Facts state what the fold makes of it. |
| Es2015.ModuleNodes | lib/types/ast-es2015.d.ts:348-440 | The kinds and fields that the layer for import and export declarations adds or extends; it is the node map of the constant `Es2015.ModuleLayer`. It has no ensures of its own. Es2015Refs and Es2015Facts state what the fold makes of it. |
| Es2015.ObjectLiteralNodes | lib/types/ast-es2015.d.ts:442-516 | The kinds and fields that the layer for object literal extensions adds or extends; it is the node map of the constant `Es2015.ObjectLiteralLayer`. It has no ensures of its own. Es2015Refs and Es2015Facts state what the fold makes of it. |
| Es2015.RegExpNodes | lib/types/ast-es2015.d.ts:518-525 | The kinds and fields that the layer for regular expression literals adds or extends (a `value` that may be `null`); it is the node map of the constant `Es2015.RegExpLayer`. It has no ensures of its own. Es2015Refs and Es2015Facts state what the fold makes of it. |
| Es2015.SpreadNodes | lib/types/ast-es2015.d.ts:527-545 | The kinds and fields that the layer for spread elements adds or extends; it is the node map of the constant `Es2015.SpreadLayer`. It has no ensures of its own. Es2015Refs and Es2015Facts state what the fold makes of it. |
| Es2015.TemplateLiteralNodes | lib/types/ast-es2015.d.ts:547-566 | The kinds and fields that the layer for template literals adds or extends; it is the node map of the constant `Es2015.TemplateLiteralLayer`. It has no ensures of its own. Es2015Refs and Es2015Facts state what the fold makes of it. |
| Es2015.LayerAt | lib/types/ast-es2015.d.ts:569-581 | The layers in the order in which they are applied; the constant `Es2015.Layers` lists them, and `Es2015.ES2015` is `Extends(ES5, Layers)`. It has no ensures of its own. Es2015Refs and Es2015Fold state what the fold gives. |
| Grammar.TagOfMemberExpression | lib/types/ast-es5.d.ts:149-160 | Exactly the two member expression kinds are tagged `"MemberExpression"`. |
| Grammar.TagOfLiteral | lib/types/ast-es5.d.ts:122-193 | Exactly the five literal kinds are tagged `"Literal"`. |
| Grammar.TagOfProperty | lib/types/ast-es2015.d.ts:141-514 | The hand-written tag table assigns `"Property"` to exactly the property kinds of ES5 and of the destructuring and object literal layers. This states the table only. Es5Fields.Es5Tag ties the table to `Tag` for ES5. For ES2015 the pattern-tag lemmas compute the tags from the fold itself. |
| Grammar.Literals | lib/types/ast-es5.d.ts:103-208 | A union of string literal types holds exactly one literal per operator string. |
| Es5Counts.LiteralsCount | lib/types/ast-es5.d.ts:103-208 | The union of the literal types of a set of operators has one member per operator. |
| Es5Counts.StatementCount | lib/types/ast-es5.d.ts:243-262 | There are nineteen statement kinds. |
| Es5Counts.ExpressionCount | lib/types/ast-es5.d.ts:264-285 | There are twenty-one expression kinds. |
| Es5Counts.AssignmentOperatorCount | lib/types/ast-es5.d.ts:104-106 | Twelve assignment operators (ECMA-262 5.1 section 11.13). |
| Es5Counts.BinaryOperatorCount | lib/types/ast-es5.d.ts:114-118 | Twenty-one binary operators, `in` and `instanceof` among them. |
| Es5Counts.OtherOperatorCounts | lib/types/ast-es5.d.ts:144-208 | Two logical, seven unary and two update operators. |
| Es5Counts.BinaryOperatorField | lib/types/ast-es5.d.ts:113-121 | `BinaryExpression.operator` is a union of twenty-one string literal types. |
| Es5Counts.AssignmentOperatorField | lib/types/ast-es5.d.ts:103-112 | `AssignmentExpression.operator` is a union of twelve string literal types. |
| Es5Facts.References | lib/types/ast-es5.d.ts:10-241 | Every name that an ES5 field refers to is listed in the reference table. |
| Es5Facts.StatementsDefined | lib/types/ast-es5.d.ts:243-262 | Every statement is a defined kind. |
| Es5Facts.ExpressionsDefined | lib/types/ast-es5.d.ts:264-285 | Every expression is a defined kind. |
| Es5Facts.KindSetsDisjoint | lib/types/ast-es5.d.ts:243-285 | No kind is both a statement and an expression. |
| Es5Facts.NoNodeReferences | lib/types/ast-es5.d.ts:10-241 | No ES5 field refers to `Node`. |
| Es5Facts.ParentsByTable | lib/types/ast-es5.d.ts:10-241 | A kind that is neither statement nor expression has as parents exactly the kinds that name it. |
| Es5Facts.ProgramIsRoot | lib/types/ast-es5.d.ts:13-17 | `Program` is neither statement nor expression, and its `parent` is `null`. |
| Es5Facts.SwitchCaseParent | lib/types/ast-es5.d.ts:75-78 | `SwitchCase` occurs only in `SwitchStatement.cases`. |
| Es5Facts.VariableDeclaratorParent | lib/types/ast-es5.d.ts:87-89 | `VariableDeclarator` occurs only in `VariableDeclaration.declarations`. |
| Es5Facts.CatchClauseParent | lib/types/ast-es5.d.ts:82-86 | `CatchClause` occurs only in `TryStatement.handler`. |
| Es5Facts.BasicPropertyParent | lib/types/ast-es5.d.ts:175-180 | `BasicProperty` occurs only in `ObjectExpression.properties`. |
| Es5Facts.AccessorPropertyParent | lib/types/ast-es5.d.ts:175-180 | `AccessorProperty` occurs only in `ObjectExpression.properties`. |
| Es5Facts.NamedChild | lib/types/ast-es5.d.ts:10-241 | A kind named in a field of `p` has `p` among its parents. |
| Es5Facts.BreakStatementParentOfIdentifier | lib/types/ast-es5.d.ts:23-25 | `BreakStatement.label` makes it a parent of `Identifier`. |
| Es5Facts.ContinueStatementParentOfIdentifier | lib/types/ast-es5.d.ts:26-28 | `ContinueStatement.label` makes it a parent of `Identifier`. |
| Es5Facts.LabeledStatementParentOfIdentifier | lib/types/ast-es5.d.ts:68-71 | `LabeledStatement.label` makes it a parent of `Identifier`. |
| Es5Facts.FunctionDeclarationParentOfIdentifier | lib/types/ast-es5.d.ts:58-62 | `FunctionDeclaration.id` and `params` make it a parent of `Identifier`. |
| Es5Facts.FunctionExpressionParentOfIdentifier | lib/types/ast-es5.d.ts:136-140 | `FunctionExpression.id` and `params` make it a parent of `Identifier`. |
| Es5Facts.BasicMemberExpressionParentOfIdentifier | lib/types/ast-es5.d.ts:149-154 | `BasicMemberExpression.property` makes it a parent of `Identifier`. |
| Es5Facts.CatchClauseParentOfIdentifier | lib/types/ast-es5.d.ts:211-214 | `CatchClause.param` makes it a parent of `Identifier`. |
| Es5Facts.VariableDeclaratorParentOfIdentifier | lib/types/ast-es5.d.ts:237-240 | `VariableDeclarator.id` makes it a parent of `Identifier`. |
| Es5Facts.IdentifierParents | lib/types/ast-es5.d.ts:23-240 | The eight kinds above are all parents of `Identifier`. |
| Es5Fields.Es5Tag | lib/types/ast-es5.d.ts:10-241 | Every ES5 kind carries exactly one tag, its declared `type` literal or its own name, and no other string type. |
| Es5Fields.MemberTagUndefined | lib/types/ast-es5.d.ts:10-241 | The tag name `MemberExpression` is not a kind. |
| Es5Fields.MemberExpressionSelects | lib/types/ast-es5.d.ts:149-160 | The tag `MemberExpression` selects exactly the two member expression kinds. |
| Es5Fields.LiteralTagUndefined | lib/types/ast-es5.d.ts:10-241 | The tag name `Literal` is not a kind. |
| Es5Fields.LiteralSelects | lib/types/ast-es5.d.ts:122-193 | The tag `Literal` selects exactly the five literal kinds. |
| Es5Fields.PropertyExtracted | lib/types/ast-es5.d.ts:215-232 | Whatever the tag `Property` selects is one of the two property kinds. |
| Es5Fields.PropertySelects | lib/types/ast-es5.d.ts:215-232 | The tag `Property` selects exactly `BasicProperty` and `AccessorProperty`. |
| Es5Fields.BasicMemberFields | lib/types/ast-es5.d.ts:149-154 | `BasicMemberExpression` has `computed` false and an `Identifier` property. |
| Es5Fields.ComputedMemberFields | lib/types/ast-es5.d.ts:155-160 | `ComputedMemberExpression` has `computed` true and an expression property. |
| Es5Fields.MemberExpressionsByComputed | lib/types/ast-es5.d.ts:149-160 | The two kinds tagged `MemberExpression` are told apart by `computed` (false/true) and by their `property`. |
| Es5Fields.BooleanLiteralRegex | lib/types/ast-es5.d.ts:122-126 | `BooleanLiteral.regex` is `undefined`. |
| Es5Fields.NullLiteralRegex | lib/types/ast-es5.d.ts:165-169 | `NullLiteral.regex` is `undefined`. |
| Es5Fields.NumberLiteralRegex | lib/types/ast-es5.d.ts:170-174 | `NumberLiteral.regex` is `undefined`. |
| Es5Fields.StringLiteralRegex | lib/types/ast-es5.d.ts:189-193 | `StringLiteral.regex` is `undefined`. |
| Es5Fields.RegExpLiteralRegex | lib/types/ast-es5.d.ts:181-185 | `RegExpLiteral.regex` is the `{ pattern, flags }` object. |
| Es5Fields.OnlyRegExpLiteralHasRegex | lib/types/ast-es5.d.ts:122-193 | Of the five kinds tagged `Literal`, only `RegExpLiteral` has a `regex` that is not `undefined`. |
| Es5Fields.BasicPropertyFields | lib/types/ast-es5.d.ts:215-223 | `BasicProperty` has kind `"init"` and an expression value. |
| Es5Fields.AccessorPropertyFields | lib/types/ast-es5.d.ts:224-232 | `AccessorProperty` has kind `"get"` or `"set"` and a `FunctionExpression` value. |
| Es5Fields.ExpressionValueAdmits | lib/types/ast-es5.d.ts:264-285 | An expression-valued field admits exactly the ES5 expressions. |
| Es5Fields.FunctionValueAdmits | lib/types/ast-es5.d.ts:231 | `NodeRef<"FunctionExpression">` admits that kind alone. |
| Es5Fields.PropertiesByKind | lib/types/ast-es5.d.ts:215-232 | The two kinds tagged `Property` are told apart by `kind`. Their values admit all expressions and only `FunctionExpression` respectively. |
| Es5Fields.SimpleTargetAdmits | lib/types/ast-es5.d.ts:107-110 | A simple target admits exactly `Identifier`, `BasicMemberExpression` and `ComputedMemberExpression`. |
| Es5Fields.AssignmentLeftIs | lib/types/ast-es5.d.ts:107-110 | `AssignmentExpression.left` is the simple target union. |
| Es5Fields.UpdateArgumentIs | lib/types/ast-es5.d.ts:203-206 | `UpdateExpression.argument` is the simple target union. |
| Es5Fields.ForInLeftIs | lib/types/ast-es5.d.ts:41-45 | `ForInStatement.left` is the simple target union plus `VariableDeclaration`. |
| Es5Fields.AssignmentTargets | lib/types/ast-es5.d.ts:103-208 | `AssignmentExpression.left` and `UpdateExpression.argument` admit exactly the three simple targets. |
| Es5Fields.ForInTargetAdmits | lib/types/ast-es5.d.ts:41-45 | The simple targets plus `VariableDeclaration` admit exactly those four kinds. |
| Es5Fields.ForInTargets | lib/types/ast-es5.d.ts:40-48 | `ForInStatement.left` admits the three simple targets and `VariableDeclaration`. |
| Es2015Refs.ContributionsOfLayers | lib/types/ast-es2015.d.ts:569-581 | The contributions of the eleven layers are the layer parts, in order. |
| Es2015Refs.LayerMentions | lib/types/ast-es2015.d.ts:11-566 | Every name a layer's kind refers to is listed for that layer. |
| Es2015Refs.LayerNodesAre | lib/types/ast-es2015.d.ts:11-566 | A layer contributes to a kind exactly when its declaration lists that kind. |
| Es2015Refs.LayerBodiesAre | lib/types/ast-es2015.d.ts:11-566 | The body a layer contributes to a kind is the one it declares. |
| Es2015Fold.FoldAgrees | lib/types/ast-es2015.d.ts:569-581 | The chunked fold onto any base agrees with the flat merge of the base and the eleven layers. |
| Es2015Fold.LayerStatements | lib/types/ast-es2015.d.ts:99-336 | The layers declare exactly `ClassDeclaration` and `ForOfStatement` as statements. |
| Es2015Fold.LayerExpressions | lib/types/ast-es2015.d.ts:29-565 | The layers declare exactly the six new expression kinds. |
| Es2015Fold.FoldKindSets | lib/types/ast-es2015.d.ts:569-581 | The fold's statements and expressions are the base's plus the new ones. |
| Es2015Fold.FoldKinds | lib/types/ast-es2015.d.ts:569-581 | The fold's kinds are the base's kinds and the kinds some layer contributes to. |
| Es2015Fold.LayersReferWithin | lib/types/ast-es2015.d.ts:11-566 | The layers' references are within the per-layer lists, and no layer refers to `Node`. |
| Es2015Fold.FoldParents | lib/types/ast-es2015.d.ts:569-581 | A kind that the base never names and that only layer `j` names, at `qs`, has exactly `qs` as parents after the fold. |
| Es2015Fold.FoldRoot | lib/types/ast-es2015.d.ts:569-581 | A kind that nothing names, and that is neither statement nor expression, has no parents after the fold. |
| Es2015Fold.FoldPlainField | lib/types/ast-es2015.d.ts:569-581 | An array-free field after the fold is the union of what its givers give. |
| Es2015Fold.FoldListField | lib/types/ast-es2015.d.ts:569-581 | An all-array field after the fold is one array of all contributed elements. |
| Es2015Fold.FoldPlainFromLayer | lib/types/ast-es2015.d.ts:569-581 | A field widened by one layer alone is the base's members plus that layer's. |
| Es2015Fold.FoldListFromLayer | lib/types/ast-es2015.d.ts:569-581 | A list field extended by one layer alone is one array of both parts' elements. |
| Es2015Fold.FoldFieldAbsent | lib/types/ast-es2015.d.ts:569-581 | A field given by neither the base nor any layer is absent after the fold. |
| Es2015Facts.Es2015Statements | lib/types/ast-es2015.d.ts:569-581 | The statements are the nineteen ES5 ones plus `ClassDeclaration` and `ForOfStatement`: twenty-one. |
| Es2015Facts.Es2015Expressions | lib/types/ast-es2015.d.ts:569-581 | The expressions are the twenty-one ES5 ones plus the six new ones: twenty-seven. |
| Es2015Facts.Es5KindKept | lib/types/ast-es2015.d.ts:569-581 | Every ES5 kind is an ES2015 kind. |
| Es2015Facts.LayerKindKept | lib/types/ast-es2015.d.ts:569-581 | Every kind a layer contributes to is an ES2015 kind. |
| Es2015Facts.NeitherAfterFold | lib/types/ast-es2015.d.ts:569-581 | A kind outside the old and new statement and expression sets is neither after the fold. |
| Es2015Facts.ParentsFromLayer | lib/types/ast-es2015.d.ts:569-581 | A kind that ES5 never names and that only layer `j` names, at `qs`, has exactly `qs` as parents in ES2015. |
| Es2015Facts.RootAfterFold | lib/types/ast-es2015.d.ts:569-581 | A kind that neither ES5 nor any layer names has a `null` parent in ES2015. |
| Es2015Facts.WidenedByLayer | lib/types/ast-es2015.d.ts:569-581 | A field widened by one layer alone is, in ES2015, the ES5 members plus that layer's. |
| Es2015Facts.ListWidenedByLayer | lib/types/ast-es2015.d.ts:569-581 | A list field extended by one layer alone is, in ES2015, one array of the ES5 and layer elements. |
| Es2015Facts.TagFromLayer | lib/types/ast-es2015.d.ts:569-581 | A new kind whose `type` one layer alone declares carries that tag alone in ES2015. |
| Es2015Facts.UntypedKind | lib/types/ast-es2015.d.ts:569-581 | A new kind with no declared `type` is tagged with its own name alone in ES2015. |
| Es2015Facts.SuperNotEs5 | lib/types/ast-es5.d.ts:10-241 | `Super` is not an ES5 kind. |
| Es2015Facts.SuperFromClasses | lib/types/ast-es2015.d.ts:97 | The Class layer defines `Super`, so it is an ES2015 kind. |
| Es2015Facts.SuperCallee | lib/types/ast-es2015.d.ts:35-37 | `CallExpression.callee` names `Super`. |
| Es2015Facts.SuperObject | lib/types/ast-es2015.d.ts:38-43 | Both member expressions' `object` names `Super`. |
| Es2015Facts.SuperParents | lib/types/ast-es2015.d.ts:35-43 | The parents of `Super` are exactly `CallExpression`, `BasicMemberExpression` and `ComputedMemberExpression`. |
| Es2015Facts.AssignmentLeftWidened | lib/types/ast-es2015.d.ts:111-115 | `AssignmentExpression.left` is the ES5 simple targets plus the assignment array and object patterns. |
| Es2015Facts.ForInLeftWidened | lib/types/ast-es2015.d.ts:106-110 | `ForInStatement.left` is the ES5 targets plus the assignment array and object patterns. |
| Es2015Facts.CatchParamWidened | lib/types/ast-es2015.d.ts:206-210 | `CatchClause.param` is `Identifier` plus the binding array and object patterns. |
| Es2015Facts.DeclaratorIdWidened | lib/types/ast-es2015.d.ts:227-231 | `VariableDeclarator.id` is `Identifier` plus the binding array and object patterns. |
| Es2015Facts.ClassBodyHoldsMethods | lib/types/ast-es2015.d.ts:64-70 | `ClassBody.body` is one array of exactly the three method definition kinds. |
| Es2015Facts.MethodDefinitionTags | lib/types/ast-es2015.d.ts:71-96 | `MethodDefinition`, `ConstructorDefinition` and `ComputedMethodDefinition` all carry the tag `MethodDefinition`. |
| Es2015Facts.ConstructorKind | lib/types/ast-es2015.d.ts:84 | `ConstructorDefinition.kind` is `"constructor"`. |
| Es2015Facts.ConstructorNotStatic | lib/types/ast-es2015.d.ts:85 | `ConstructorDefinition.static` is `false`. |
| Es2015Facts.ConstructorNotComputed | lib/types/ast-es2015.d.ts:83 | `ConstructorDefinition.computed` is `false`. |
| Es2015Facts.ConstructorKey | lib/types/ast-es2015.d.ts:86 | `ConstructorDefinition.key` is `Identifier` or `StringLiteral`. |
| Es2015Facts.DeclarationGeneratorAdded | lib/types/ast-es2015.d.ts:309-311 | `FunctionDeclaration` gains `generator: boolean`. |
| Es2015Facts.ExpressionGeneratorAdded | lib/types/ast-es2015.d.ts:312-314 | `FunctionExpression` gains `generator: boolean`. |
| Es2015Facts.DeclarationKindAdded | lib/types/ast-es2015.d.ts:342-344 | `VariableDeclaration.kind` is `"var"`, `"let"` or `"const"`. |
| Es2015Facts.RegExpValueWidened | lib/types/ast-es2015.d.ts:521-523 | `RegExpLiteral.value` becomes `RegExp \| null`. |
| Es2015Facts.ProgramSourceType | lib/types/ast-es2015.d.ts:351-353 | `Program.sourceType` is `"script"`. |
| Es2015Facts.ModuleProgramSourceType | lib/types/ast-es2015.d.ts:354-356 | `ModuleProgram.sourceType` is `"module"`. |
| Es2015Facts.ArrayElementsSpread | lib/types/ast-es2015.d.ts:530-532 | `ArrayExpression.elements` is one array of expressions, `null` and `SpreadElement`. |
| Es2015Facts.CallArgumentsSpread | lib/types/ast-es2015.d.ts:533-535 | `CallExpression.arguments` is one array of expressions and `SpreadElement`. |
| Es2015Facts.NewArgumentsSpread | lib/types/ast-es2015.d.ts:536-538 | `NewExpression.arguments` is one array of expressions and `SpreadElement`. |
| Es2015Facts.DeclarationParamsWidened | lib/types/ast-es2015.d.ts:211-218 | `FunctionDeclaration.params` is one array of `Identifier` and the four binding pattern kinds. |
| Es2015Facts.ExpressionParamsWidened | lib/types/ast-es2015.d.ts:219-226 | `FunctionExpression.params` is one array of `Identifier` and the four binding pattern kinds. |
| Es2015Facts.ObjectPropertiesWidened | lib/types/ast-es2015.d.ts:445-453 | `ObjectExpression.properties` is one array of the two ES5 property kinds and the new ones. |
| Es2015Facts.SpreadElementNotEs5 | lib/types/ast-es5.d.ts:10-241 | `SpreadElement` is not an ES5 kind. |
| Es2015Facts.SpreadElementFromSpread | lib/types/ast-es2015.d.ts:540-543 | The Spread layer defines `SpreadElement`, so it is an ES2015 kind. |
| Es2015Facts.SpreadElementParents | lib/types/ast-es2015.d.ts:527-543 | The parents of `SpreadElement` are exactly `ArrayExpression`, `CallExpression` and `NewExpression`. |
| Es2015Facts.ProgramStaysRoot | lib/types/ast-es2015.d.ts:351-353 | No field refers to `Program`, so its `parent` is `null` in ES2015. |
| Es2015Facts.ModuleProgramIsRoot | lib/types/ast-es2015.d.ts:354-367 | `ModuleProgram` has a `null` parent and carries the tag `Program`. |
| Es2015Facts.ArrayPatternTags | lib/types/ast-es2015.d.ts:118-244 | Both array pattern kinds carry the tag `ArrayPattern`, which selects both. |
| Es2015Facts.ObjectPatternTags | lib/types/ast-es2015.d.ts:183-298 | Both object pattern kinds carry the tag `ObjectPattern`, which selects both. |
| Es2015Facts.AssignmentPatternTags | lib/types/ast-es2015.d.ts:131-252 | Both default-value pattern kinds carry the tag `AssignmentPattern`, which selects both. |
| Es2015Facts.RestElementTags | lib/types/ast-es2015.d.ts:191-302 | Both rest element kinds carry the tag `RestElement`, which selects both. |
| Es2015Facts.AssignmentPropertyTags | lib/types/ast-es2015.d.ts:141-182 | The three assignment pattern property kinds carry the tag `Property`, which selects them. |
| Es2015Facts.BindingPropertyTags | lib/types/ast-es2015.d.ts:253-290 | The three binding pattern property kinds carry the tag `Property`, which selects them. |

## Left out

- `At0`–`At3`, `Shift4` and the `Prop` default trick are TypeScript mechanics. The fold slices its list of layers directly, and `Contribution` stands in for `Prop`'s defaults.
- `readonly` modifiers are not modelled.
- A query for an undefined kind resolves to `unknown` in TypeScript. Here it is `None`.
- Whether the conditional type at lib/types/ast-definer.d.ts:100-101 distributes over `X | null` is not modelled. The model takes the documented intent: every `NodeRef` counts as a child.
- `Range`, `Location`, `Comment` and `Token` come from `ast-common`, which is not part of this model.
  - `Comment` and `Token` are opaque array elements.
  - The values of `range` and `loc` are left implicit in a resolved node; only their names are listed.
- `RegExp`, `number`, `string`, `boolean` and inline object shapes are opaque primitives.
- The empty tuple type `[]` of `ExportNamedDeclaration.specifiers` is modelled as an array with no element types.
- The exported per-kind interfaces and `Node<T>` aliases (lib/types/ast-es2015.d.ts:587 onwards) are instances of `ResolveNode` and `ExtractNode`; they are not listed one by one.
- lib/rules/utils/rule.d.ts, the rule API, and the code-path-analysis test fixture use these node types but take no part in the schema algebra; they are not part of this model.
- No error is reported for conflicting tags or dangling references, because the code reports none.
- Es2015Facts.ArrayPatternTags: states that the tag selects both pattern kinds, not that it selects no other ES2015 kind. The same holds for ObjectPatternTags, AssignmentPatternTags, RestElementTags, AssignmentPropertyTags and BindingPropertyTags. Exactness would need the tag of every ES2015 kind.
- Es2015Facts.ObjectPatternTags: states membership in the tag's selection, not exactness (see above).
- Es2015Facts.AssignmentPatternTags: states membership in the tag's selection, not exactness (see above).
- Es2015Facts.RestElementTags: states membership in the tag's selection, not exactness (see above).
- Es2015Facts.AssignmentPropertyTags: states membership in the tag's selection, not exactness; the object literal layer's property kinds also carry `Property`.
- Es2015Facts.BindingPropertyTags: states membership in the tag's selection, not exactness (see above).
- Es2015Facts.MethodDefinitionTags: states the shared tag, not the exact selection of `ExtractNode<"MethodDefinition">`.
- MergeLaws.ChunkWidthIrrelevant: chunk widths agree up to the grouping of array members only. MergeLaws.MixedFieldDependsOnChunking shows that a field mixing arrays and other members across layers does depend on the grouping. The ES2015 facts are proved about the four-per-step fold itself.
