/** The category forest: every category stores the path from its root, and attributes are inherited along it. */
module Categories {
  import opened Kernel

  const MAX_DEPTH: int := 6

  type Code = string

  /** `spec` stands for the name, type and options of the attribute. */
  datatype Attribute = Attribute(code: Code, spec: Reference)

  datatype CategoryError =
    | InvalidId | TooDeep | NotFound | BrokenChain | DuplicateAttribute | InvalidCode | AttributeNotFound
    | SlugTaken | ConcurrentModification

  datatype Category = Category(
    id: Reference, parent: Reference, slug: string, ancestors: seq<Reference>, attributes: seq<Attribute>, version: nat)
  {
    function Depth(): nat { |ancestors| + 1 }

    function Path(): seq<Reference> { ancestors + [id] }

    function Define(def: Attribute, inherited: seq<Attribute>,
        descendants: set<Code>): Result<Category, CategoryError> {
      if def.code == "" then Err(InvalidCode)
      else if HasCode(inherited, def.code) || def.code in descendants || HasCode(attributes, def.code)
        then Err(DuplicateAttribute)
      else Ok(this.(attributes := attributes + [def]))
    }

    function Remove(code: Code): Result<Category, CategoryError> {
      var i := FindCode(attributes, code);
      if i < 0 then Err(AttributeNotFound) else Ok(this.(attributes := attributes[..i] + attributes[i + 1..]))
    }
  }

  predicate HasCode(attributes: seq<Attribute>, code: Code) {
    exists i :: 0 <= i < |attributes| && attributes[i].code == code
  }

  function AttributeCode(x: Attribute): Code { x.code }

  function FindCode(attributes: seq<Attribute>, code: Code): (i: int)
    ensures -1 <= i < |attributes|
    ensures i >= 0 ==> attributes[i].code == code && forall j :: 0 <= j < i ==> attributes[j].code != code
    ensures i < 0 ==> forall j :: 0 <= j < |attributes| ==> attributes[j].code != code
  {
    FindFirst(attributes, AttributeCode, code)
  }

  /** Names and slugs are taken as valid. */
  function Create(id: Reference, slug: string, parent: Option<Category>): Result<Category, CategoryError> {
    if id == BLANK then Err(InvalidId)
    else match parent
      case None => Ok(Category(id, BLANK, slug, [], [], 0))
      case Some(p) => if p.Depth() >= MAX_DEPTH then Err(TooDeep) else Ok(Category(id, p.id, slug, p.Path(), [], 0))
  }

  // ---------- the store ----------

  type Tree = map<Reference, Category>

  function Save(tree: Tree, c: Category): Result<Tree, CategoryError> {
    if (c.version == 0 && c.id in tree) || (c.version > 0 && (c.id !in tree || tree[c.id].version != c.version)) then
      Err(ConcurrentModification)
    else if exists id :: id in tree && id != c.id && tree[id].parent == c.parent && tree[id].slug == c.slug
      then Err(SlugTaken)
    else Ok(tree[c.id := c.(version := c.version + 1)])
  }

  /** The categories of a path. */
  function Lookup(tree: Tree, path: seq<Reference>): Result<seq<Category>, CategoryError> {
    if path == [] then Ok([])
    else match Lookup(tree, path[..|path| - 1])
      case Err(e) => Err(e)
      case Ok(chain) => if path[|path| - 1] in tree then Ok(chain + [tree[path[|path| - 1]]]) else Err(BrokenChain)
  }

  function Chain(tree: Tree, id: Reference): Result<seq<Category>, CategoryError> {
    if id !in tree then Err(NotFound)
    else match Lookup(tree, tree[id].ancestors)
      case Err(e) => Err(e)
      case Ok(chain) => Ok(chain + [tree[id]])
  }

  function DescendantCodes(tree: Tree, id: Reference): set<Code> {
    set c, a | c in tree && id in tree[c].ancestors && a in tree[c].attributes :: a.code
  }

  // ---------- classification ----------

  datatype Classification = Classification(id: Reference, path: seq<Reference>, schema: seq<Attribute>)

  predicate DistinctCodes(attributes: seq<Attribute>) {
    forall i, j :: 0 <= i < j < |attributes| ==> attributes[i].code != attributes[j].code
  }

  function NewSchema(attributes: seq<Attribute>): Result<seq<Attribute>, CategoryError> {
    if DistinctCodes(attributes) then Ok(attributes) else Err(DuplicateAttribute)
  }

  function Ids(chain: seq<Category>): (r: seq<Reference>)
    ensures |r| == |chain| && forall i :: 0 <= i < |chain| ==> r[i] == chain[i].id
  {
    seq(|chain|, i requires 0 <= i < |chain| => chain[i].id)
  }

  function Inherited(chain: seq<Category>): seq<Attribute> {
    if chain == [] then [] else Inherited(chain[..|chain| - 1]) + chain[|chain| - 1].attributes
  }

  function Classify(chain: seq<Category>): Result<Classification, CategoryError> {
    if chain == [] then Err(NotFound)
    else if exists i :: 0 <= i < |chain| && chain[i].ancestors != Ids(chain)[..i] then Err(BrokenChain)
    else match NewSchema(Inherited(chain))
      case Err(e) => Err(e)
      case Ok(schema) => Ok(Classification(chain[|chain| - 1].id, chain[|chain| - 1].Path(), schema))
  }

  function Classified(tree: Tree, id: Reference): Result<Classification, CategoryError> {
    match Chain(tree, id)
    case Err(e) => Err(e)
    case Ok(chain) => Classify(chain)
  }

  // ---------- transactions ----------

  function CreateIn(tree: Tree, id: Reference, slug: string, parent: Reference): Result<Tree, CategoryError> {
    if parent != BLANK && parent !in tree then Err(NotFound)
    else match Create(id, slug, if parent == BLANK then None else Some(tree[parent]))
      case Err(e) => Err(e)
      case Ok(c) => Save(tree, c)
  }

  /** What the category inherits, read in the same transaction. */
  function SchemaAbove(tree: Tree, c: Category): Result<seq<Attribute>, CategoryError> {
    if c.parent == BLANK then Ok([])
    else match Classified(tree, c.parent)
      case Err(e) => Err(e)
      case Ok(above) => Ok(above.schema)
  }

  function Defined(tree: Tree, id: Reference, def: Attribute): Result<Category, CategoryError> {
    if id !in tree then Err(NotFound)
    else match SchemaAbove(tree, tree[id])
      case Err(e) => Err(e)
      case Ok(inherited) => tree[id].Define(def, inherited, DescendantCodes(tree, id))
  }

  function DefineIn(tree: Tree, id: Reference, def: Attribute): Result<Tree, CategoryError> {
    match Defined(tree, id, def)
    case Err(e) => Err(e)
    case Ok(c) => Save(tree, c)
  }

  function RemoveIn(tree: Tree, id: Reference, code: Code): Result<Tree, CategoryError> {
    if id !in tree then Err(NotFound)
    else match tree[id].Remove(code)
      case Err(e) => Err(e)
      case Ok(c) => Save(tree, c)
  }

  function RenameIn(tree: Tree, id: Reference, slug: string): Result<Tree, CategoryError> {
    if id !in tree then Err(NotFound) else Save(tree, tree[id].(slug := slug))
  }

  datatype Change =
    | DoCreate(id: Reference, slug: string, parent: Reference)
    | DoDefine(id: Reference, def: Attribute)
    | DoRemove(id: Reference, code: Code)
    | DoRename(id: Reference, slug: string)

  function Outcome(tree: Tree, change: Change): Result<Tree, CategoryError> {
    match change
    case DoCreate(id, slug, parent) => CreateIn(tree, id, slug, parent)
    case DoDefine(id, def) => DefineIn(tree, id, def)
    case DoRemove(id, code) => RemoveIn(tree, id, code)
    case DoRename(id, slug) => RenameIn(tree, id, slug)
  }

  function Next(tree: Tree, change: Change): Tree {
    match Outcome(tree, change) case Ok(next) => next case Err(_) => tree
  }

  function Run(changes: seq<Change>): Tree {
    if changes == [] then map[] else Next(Run(changes[..|changes| - 1]), changes[|changes| - 1])
  }

  // ---------- the invariant ----------

  ghost predicate Placed(tree: Tree, c: Category) {
    && c.id != BLANK && c.version > 0 && |c.ancestors| < MAX_DEPTH
    && (c.parent == BLANK ==> c.ancestors == [])
    && (c.parent != BLANK ==> c.parent in tree && c.ancestors == tree[c.parent].Path())
  }

  ghost predicate Rooted(tree: Tree) {
    forall id :: id in tree ==> tree[id].id == id && Placed(tree, tree[id])
  }

  ghost predicate Disjoint(a: Category, b: Category) {
    forall i, j :: 0 <= i < |a.attributes| && 0 <= j < |b.attributes| ==> a.attributes[i].code != b.attributes[j].code
  }

  /** No code occurs twice between a category and any of its ancestors. */
  ghost predicate Clashless(tree: Tree) {
    forall id :: id in tree ==>
      && DistinctCodes(tree[id].attributes)
      && forall k :: 0 <= k < |tree[id].ancestors| && tree[id].ancestors[k] in tree ==>
        Disjoint(tree[tree[id].ancestors[k]], tree[id])
  }

  ghost predicate Forest(tree: Tree) { Rooted(tree) && Clashless(tree) }

  /** `path` leads from a root to its last category by parent links. */
  ghost predicate RootPath(tree: Tree, path: seq<Reference>) {
    && path != [] && (forall i :: 0 <= i < |path| ==> path[i] in tree)
    && tree[path[0]].parent == BLANK
    && forall i :: 0 < i < |path| ==> tree[path[i]].parent == path[i - 1]
  }

  /** Every ancestor stores the beginning of the path. */
  lemma {:induction false} AncestorsNest(tree: Tree, id: Reference, i: nat)
    requires Rooted(tree) && id in tree && i < |tree[id].ancestors|
    ensures var a := tree[id].ancestors[i]; a in tree && tree[a].ancestors == tree[id].ancestors[..i]
    decreases |tree[id].ancestors|
  {
    var c := tree[id];
    assert Placed(tree, c);
    var p := tree[c.parent];
    assert p.id == c.parent;
    if i < |p.ancestors| {
      AncestorsNest(tree, c.parent, i);
      assert c.ancestors[..i] == p.ancestors[..i];
    } else {
      assert c.ancestors[..i] == p.ancestors;
    }
  }

  lemma {:induction false} PathIsRootPath(tree: Tree, id: Reference)
    requires Rooted(tree) && id in tree
    ensures RootPath(tree, tree[id].Path()) && |tree[id].Path()| <= MAX_DEPTH
      && tree[id].Path()[|tree[id].Path()| - 1] == id
    decreases |tree[id].ancestors|
  {
    var c := tree[id];
    assert Placed(tree, c);
    if c.parent != BLANK {
      PathIsRootPath(tree, c.parent);
      var above := tree[c.parent].Path();
      forall i | 0 < i < |c.Path()| ensures tree[c.Path()[i]].parent == c.Path()[i - 1] {
        if i < |above| { assert c.Path()[i] == above[i]; }
      }
    }
  }

  lemma {:induction false} LookupFinds(tree: Tree, path: seq<Reference>)
    requires forall i :: 0 <= i < |path| ==> path[i] in tree
    ensures Lookup(tree, path).Ok? && |Lookup(tree, path).value| == |path|
    ensures forall i :: 0 <= i < |path| ==> Lookup(tree, path).value[i] == tree[path[i]]
  {
    if path != [] { LookupFinds(tree, path[..|path| - 1]); }
  }

  lemma ChainIsPath(tree: Tree, id: Reference)
    requires Rooted(tree) && id in tree
    ensures var path := tree[id].Path();
      && Chain(tree, id).Ok? && |Chain(tree, id).value| == |path|
      && forall i :: 0 <= i < |path| ==>
          path[i] in tree && Chain(tree, id).value[i] == tree[path[i]] && tree[path[i]].ancestors == path[..i]
  {
    var c := tree[id];
    forall i | 0 <= i < |c.ancestors|
      ensures c.ancestors[i] in tree && tree[c.ancestors[i]].ancestors == c.ancestors[..i]
    {
      AncestorsNest(tree, id, i);
    }
    LookupFinds(tree, c.ancestors);
    forall i | 0 <= i < |c.Path()| ensures tree[c.Path()[i]].ancestors == c.Path()[..i] {
      assert c.Path()[..i] == c.ancestors[..i];
    }
  }

  lemma DistinctConcat(a: seq<Attribute>, b: seq<Attribute>)
    requires DistinctCodes(a) && DistinctCodes(b)
    requires forall i, j :: 0 <= i < |a| && 0 <= j < |b| ==> a[i].code != b[j].code
    ensures DistinctCodes(a + b)
  {
  }

  /** Every inherited attribute comes from one of the categories of the chain. */
  lemma {:induction false} InheritedFrom(chain: seq<Category>, k: nat) returns (n: nat, i: nat)
    requires k < |Inherited(chain)|
    ensures n < |chain| && i < |chain[n].attributes| && Inherited(chain)[k] == chain[n].attributes[i]
  {
    var above := Inherited(chain[..|chain| - 1]);
    if k < |above| {
      n, i := InheritedFrom(chain[..|chain| - 1], k);
    } else {
      n, i := |chain| - 1, k - |above|;
    }
  }

  lemma {:induction false} InheritedHas(chain: seq<Category>, n: nat, i: nat)
    requires n < |chain| && i < |chain[n].attributes|
    ensures HasCode(Inherited(chain), chain[n].attributes[i].code)
  {
    var above := Inherited(chain[..|chain| - 1]);
    if n < |chain| - 1 {
      InheritedHas(chain[..|chain| - 1], n, i);
      var k :| 0 <= k < |above| && above[k].code == chain[n].attributes[i].code;
      assert Inherited(chain)[k] == above[k];
    } else {
      assert Inherited(chain)[|above| + i] == chain[n].attributes[i];
    }
  }

  lemma {:induction false} InheritedIsDistinct(chain: seq<Category>)
    requires forall n :: 0 <= n < |chain| ==> DistinctCodes(chain[n].attributes)
    requires forall m, n :: 0 <= m < n < |chain| ==> Disjoint(chain[m], chain[n])
    ensures DistinctCodes(Inherited(chain))
  {
    if chain != [] {
      var init, last := chain[..|chain| - 1], chain[|chain| - 1];
      InheritedIsDistinct(init);
      forall k, j | 0 <= k < |Inherited(init)| && 0 <= j < |last.attributes|
        ensures Inherited(init)[k].code != last.attributes[j].code {
        var n, i := InheritedFrom(init, k);
        assert Disjoint(chain[n], chain[|chain| - 1]);
      }
      DistinctConcat(Inherited(init), last.attributes);
    }
  }

  /** In a forest every category can be classified: its stored path is the path from its root by parent links, at most
      six deep, and the schema is everything defined along it, each code once. */
  lemma EveryCategoryClassifies(tree: Tree, id: Reference)
    requires Forest(tree) && id in tree
    ensures var r := Classified(tree, id);
      && r.Ok? && r.value.id == id && r.value.path == tree[id].Path() && RootPath(tree, r.value.path)
        && |r.value.path| <= MAX_DEPTH
      && r.value.schema == Inherited(Chain(tree, id).value) && DistinctCodes(r.value.schema)
  {
    ChainIsPath(tree, id);
    PathIsRootPath(tree, id);
    var chain, path := Chain(tree, id).value, tree[id].Path();
    assert Ids(chain) == path by {
      forall i | 0 <= i < |path| ensures Ids(chain)[i] == path[i] { assert tree[path[i]].id == path[i]; }
    }
    forall m, n | 0 <= m < n < |chain| ensures Disjoint(chain[m], chain[n]) {
      assert tree[path[n]].ancestors[m] == path[m];
    }
    InheritedIsDistinct(chain);
    assert path[|path| - 1] == id;
  }

  // ---------- every transaction keeps the forest ----------

  lemma ReplaceKeepsRooted(tree: Tree, id: Reference, c: Category)
    requires Rooted(tree) && id in tree && c.version > 0
    requires c == tree[id].(slug := c.slug, attributes := c.attributes, version := c.version)
    ensures Rooted(tree[id := c])
  {
    var next := tree[id := c];
    forall k | k in next ensures next[k].id == k && Placed(next, next[k]) {
      assert Placed(tree, tree[k]);
    }
  }

  /** A category with other attributes clashes with nobody if it does not clash with its ancestors and its
      descendants. */
  lemma ReplaceKeepsForest(tree: Tree, id: Reference, c: Category)
    requires Forest(tree) && id in tree && c.version > 0
    requires c == tree[id].(slug := c.slug, attributes := c.attributes, version := c.version)
    requires DistinctCodes(c.attributes)
    requires forall k :: 0 <= k < |c.ancestors| && c.ancestors[k] in tree ==> Disjoint(tree[c.ancestors[k]], c)
    requires forall d :: d in tree && id in tree[d].ancestors ==> Disjoint(c, tree[d])
    ensures Forest(tree[id := c])
  {
    ReplaceKeepsRooted(tree, id, c);
    var next := tree[id := c];
    forall d, k | d in next && 0 <= k < |next[d].ancestors| && next[d].ancestors[k] in next
      ensures Disjoint(next[next[d].ancestors[k]], next[d])
    {
      var a := next[d].ancestors[k];
      AncestorsNest(next, d, k);
      if a == id {
        assert tree[d].ancestors[k] == id && d != id;
      } else if d != id {
        assert Disjoint(tree[a], tree[d]);
      }
    }
  }

  lemma SavedReplaces(tree: Tree, id: Reference, c: Category)
    requires Rooted(tree) && id in tree && c == tree[id].(slug := c.slug, attributes := c.attributes)
      && Save(tree, c).Ok?
    ensures Save(tree, c).value == tree[id := c.(version := c.version + 1)] && c.version > 0
  {
    assert Placed(tree, tree[id]);
  }

  /** The new code is on no category above, which is what the inherited schema says, and on none below. */
  lemma DefineKeepsForest(tree: Tree, id: Reference, def: Attribute)
    requires Forest(tree) && DefineIn(tree, id, def).Ok?
    ensures Forest(DefineIn(tree, id, def).value)
  {
    var c := Defined(tree, id, def).value;
    var inherited := SchemaAbove(tree, tree[id]).value;
    SavedReplaces(tree, id, c);
    assert Placed(tree, tree[id]);
    DefinedIsDistinct(tree[id].attributes, def);
    forall k | 0 <= k < |c.ancestors| && c.ancestors[k] in tree ensures Disjoint(tree[c.ancestors[k]], c) {
      DefinedAboveDisjoint(tree, id, def, k);
    }
    forall d | d in tree && id in tree[d].ancestors ensures Disjoint(c, tree[d]) {
      DefinedBelowDisjoint(tree, id, def, d);
    }
    ReplaceKeepsForest(tree, id, c.(version := c.version + 1));
  }

  lemma DefinedIsDistinct(attributes: seq<Attribute>, def: Attribute)
    requires DistinctCodes(attributes) && !HasCode(attributes, def.code)
    ensures DistinctCodes(attributes + [def])
  {
  }

  lemma DefinedAboveDisjoint(tree: Tree, id: Reference, def: Attribute, k: nat)
    requires Forest(tree) && id in tree && k < |tree[id].ancestors| && Defined(tree, id, def).Ok?
    ensures tree[id].ancestors[k] in tree && Disjoint(tree[tree[id].ancestors[k]], Defined(tree, id, def).value)
  {
    hide Classify, Chain;
    var c := tree[id];
    assert Placed(tree, c);
    AncestorsNest(tree, id, k);
    var a := tree[c.ancestors[k]];
    assert Disjoint(a, c);
    EveryCategoryClassifies(tree, c.parent);
    ChainIsPath(tree, c.parent);
    var chain := Chain(tree, c.parent).value;
    assert chain[k] == a;
    forall i | 0 <= i < |a.attributes| ensures a.attributes[i].code != def.code {
      InheritedHas(chain, k, i);
    }
  }

  lemma DefinedBelowDisjoint(tree: Tree, id: Reference, def: Attribute, d: Reference)
    requires Forest(tree) && id in tree && d in tree && id in tree[d].ancestors && Defined(tree, id, def).Ok?
    ensures Disjoint(Defined(tree, id, def).value, tree[d])
  {
    hide SchemaAbove;
    var k :| 0 <= k < |tree[d].ancestors| && tree[d].ancestors[k] == id;
    assert Disjoint(tree[id], tree[d]);
    forall j | 0 <= j < |tree[d].attributes| ensures tree[d].attributes[j].code != def.code {
      assert tree[d].attributes[j] in tree[d].attributes;
      assert tree[d].attributes[j].code in DescendantCodes(tree, id);
    }
  }

  /** Fewer attributes clash with fewer others. */
  lemma RemoveKeepsForest(tree: Tree, id: Reference, code: Code)
    requires Forest(tree) && RemoveIn(tree, id, code).Ok?
    ensures Forest(RemoveIn(tree, id, code).value)
  {
    var was, c := tree[id], tree[id].Remove(code).value;
    SavedReplaces(tree, id, c);
    var i := FindCode(was.attributes, code);
    assert forall j :: 0 <= j < |c.attributes| ==> c.attributes[j] == was.attributes[if j < i then j else j + 1];
    forall k | 0 <= k < |c.ancestors| && c.ancestors[k] in tree ensures Disjoint(tree[c.ancestors[k]], c) {
      assert Disjoint(tree[was.ancestors[k]], was);
    }
    forall d | d in tree && id in tree[d].ancestors ensures Disjoint(c, tree[d]) {
      var k :| 0 <= k < |tree[d].ancestors| && tree[d].ancestors[k] == id;
      assert Disjoint(was, tree[d]);
    }
    ReplaceKeepsForest(tree, id, c.(version := c.version + 1));
  }

  lemma RenameKeepsForest(tree: Tree, id: Reference, slug: string)
    requires Forest(tree) && RenameIn(tree, id, slug).Ok?
    ensures Forest(RenameIn(tree, id, slug).value)
  {
    var c := tree[id].(slug := slug);
    SavedReplaces(tree, id, c);
    forall d | d in tree && id in tree[d].ancestors ensures Disjoint(c, tree[d]) {
      var k :| 0 <= k < |tree[d].ancestors| && tree[d].ancestors[k] == id;
      assert Disjoint(tree[id], tree[d]);
    }
    ReplaceKeepsForest(tree, id, c.(version := c.version + 1));
  }

  lemma CreateKeepsForest(tree: Tree, id: Reference, slug: string, parent: Reference)
    requires Forest(tree) && CreateIn(tree, id, slug, parent).Ok?
    ensures Forest(CreateIn(tree, id, slug, parent).value)
  {
    var next := CreateIn(tree, id, slug, parent).value;
    if parent != BLANK { assert Placed(tree, tree[parent]); }
    forall k | k in next ensures next[k].id == k && Placed(next, next[k]) {
      if k != id { assert Placed(tree, tree[k]); }
    }
    forall d, k | d in next && 0 <= k < |next[d].ancestors| && next[d].ancestors[k] in next
      ensures Disjoint(next[next[d].ancestors[k]], next[d])
    {
      if d != id { AncestorsNest(tree, d, k); }
    }
  }

  lemma NextKeepsForest(tree: Tree, change: Change)
    requires Forest(tree)
    ensures Forest(Next(tree, change))
  {
    hide Forest, CreateIn, DefineIn, RemoveIn, RenameIn;
    if Outcome(tree, change).Ok? {
      match change
      case DoCreate(id, slug, parent) => CreateKeepsForest(tree, id, slug, parent);
      case DoDefine(id, def) => DefineKeepsForest(tree, id, def);
      case DoRemove(id, code) => RemoveKeepsForest(tree, id, code);
      case DoRename(id, slug) => RenameKeepsForest(tree, id, slug);
    }
  }

  lemma {:induction false} RunsAreForests(changes: seq<Change>)
    ensures Forest(Run(changes))
  {
    if changes != [] {
      hide Forest;
      RunsAreForests(changes[..|changes| - 1]);
      NextKeepsForest(Run(changes[..|changes| - 1]), changes[|changes| - 1]);
    }
  }

  /** Whatever is created, defined, removed and renamed, one transaction after the other: every category can be
      classified. */
  lemma EveryRunClassifies(changes: seq<Change>, id: Reference)
    requires id in Run(changes)
    ensures var tree := Run(changes);
      var r := Classified(tree, id);
      r.Ok? && RootPath(tree, r.value.path) && |r.value.path| <= MAX_DEPTH && DistinctCodes(r.value.schema)
  {
    RunsAreForests(changes);
    EveryCategoryClassifies(Run(changes), id);
  }

  // ---------- what may be shared and what clashes ----------

  lemma {:induction false} LookupElsewhere(tree: Tree, other: Tree, path: seq<Reference>)
    requires forall i :: 0 <= i < |path| ==>
      (path[i] in tree <==> path[i] in other) && (path[i] in tree ==> tree[path[i]] == other[path[i]])
    ensures Lookup(tree, path) == Lookup(other, path)
  {
    if path != [] { LookupElsewhere(tree, other, path[..|path| - 1]); }
  }

  /** Categories on different branches may define the same code, one after the other. */
  lemma BranchesShareCodes(tree: Tree, a: Reference, b: Reference, def: Attribute)
    requires Forest(tree) && a in tree && b in tree && a != b && a !in tree[b].ancestors && b !in tree[a].ancestors
    requires DefineIn(tree, a, def).Ok? && Defined(tree, b, def).Ok?
    ensures Defined(DefineIn(tree, a, def).value, b, def) == Defined(tree, b, def)
  {
    hide Classify;
    var c := Defined(tree, a, def).value;
    var next := DefineIn(tree, a, def).value;
    SavedReplaces(tree, a, c);
    assert Placed(tree, tree[b]);
    if tree[b].parent != BLANK {
      var p := tree[b].parent;
      assert tree[b].ancestors == tree[p].Path() && tree[p].id == p && p in tree[b].ancestors by {
        assert tree[p].Path()[|tree[p].ancestors|] == p;
      }
      forall i | 0 <= i < |tree[p].ancestors| ensures tree[p].ancestors[i] != a {
        assert tree[b].ancestors[i] == tree[p].ancestors[i];
      }
      LookupElsewhere(tree, next, tree[p].ancestors);
      assert Chain(next, p) == Chain(tree, p);
    }
    forall code ensures code in DescendantCodes(next, b) <==> code in DescendantCodes(tree, b) {
      if code in DescendantCodes(tree, b) {
        var k, x :| k in tree && b in tree[k].ancestors && x in tree[k].attributes && x.code == code;
        assert k in next && next[k] == tree[k];
      }
      if code in DescendantCodes(next, b) {
        var k, x :| k in next && b in next[k].ancestors && x in next[k].attributes && x.code == code;
        assert k in tree && next[k] == tree[k];
      }
    }
    assert DescendantCodes(next, b) == DescendantCodes(tree, b);
  }

  lemma TwiceInherited(chain: seq<Category>, m: nat, i: nat, n: nat, j: nat)
    requires m < n < |chain| && i < |chain[m].attributes| && j < |chain[n].attributes|
    requires chain[m].attributes[i].code == chain[n].attributes[j].code
    ensures !DistinctCodes(Inherited(chain))
    decreases |chain|
  {
    var init := chain[..|chain| - 1];
    if n < |init| {
      TwiceInherited(init, m, i, n, j);
      var x, y :| 0 <= x < y < |Inherited(init)| && Inherited(init)[x].code == Inherited(init)[y].code;
      assert Inherited(chain)[x] == Inherited(init)[x] && Inherited(chain)[y] == Inherited(init)[y];
    } else {
      InheritedHas(init, m, i);
      var x :| 0 <= x < |Inherited(init)| && Inherited(init)[x].code == chain[m].attributes[i].code;
      assert Inherited(chain)[x] == Inherited(init)[x];
      assert Inherited(chain)[|Inherited(init)| + j] == chain[n].attributes[j];
    }
  }

  lemma ClashingChain(tree: Tree, below: Reference, k: nat, i: nat, j: nat)
    requires Rooted(tree) && below in tree && k < |tree[below].ancestors| && tree[below].ancestors[k] in tree
    requires i < |tree[tree[below].ancestors[k]].attributes| && j < |tree[below].attributes|
    requires tree[tree[below].ancestors[k]].attributes[i].code == tree[below].attributes[j].code
    ensures Classified(tree, below) == Err(DuplicateAttribute)
  {
    hide Placed, Inherited;
    ChainIsPath(tree, below);
    var chain, path := Chain(tree, below).value, tree[below].Path();
    assert Ids(chain) == path by {
      forall i | 0 <= i < |path| ensures Ids(chain)[i] == path[i] { assert tree[path[i]].id == path[i]; }
    }
    assert path[k] == tree[below].ancestors[k] && path[|path| - 1] == below;
    TwiceInherited(chain, k, i, |path| - 1, j);
  }

  ghost predicate EveryClassifies(tree: Tree) {
    forall id :: id in tree ==> Classified(tree, id).Ok?
  }

  ghost predicate OwnDistinct(tree: Tree) {
    forall id :: id in tree ==> DistinctCodes(tree[id].attributes)
  }

  /** Where every category stores its path and repeats no code itself: all of them classify exactly in a forest. */
  lemma ClassifyExactlyInForest(tree: Tree)
    requires Rooted(tree) && OwnDistinct(tree)
    ensures EveryClassifies(tree) <==> Forest(tree)
  {
    if Forest(tree) {
      forall id | id in tree ensures Classified(tree, id).Ok? { EveryCategoryClassifies(tree, id); }
    } else {
      var id, k :| id in tree && 0 <= k < |tree[id].ancestors| && tree[id].ancestors[k] in tree
                   && !Disjoint(tree[tree[id].ancestors[k]], tree[id]);
      var i, j :| 0 <= i < |tree[tree[id].ancestors[k]].attributes| && 0 <= j < |tree[id].attributes|
                  && tree[tree[id].ancestors[k]].attributes[i].code == tree[id].attributes[j].code;
      ClashingChain(tree, id, k, i, j);
    }
  }
}
