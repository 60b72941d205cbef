/** The category aggregate, its store and the handlers, as they change state. */
module CategoryHandlers {
  import opened Kernel
  import opened Categories

  class CategoryObject {
    const id: Reference
    const parent: Reference
    const ancestors: seq<Reference>
    var slug: string
    var attributes: seq<Attribute>
    var version: nat

    function State(): Category
      reads this
    {
      Category(id, parent, slug, ancestors, attributes, version)
    }

    ghost predicate Became(was: Category, result: Result<Category, CategoryError>, error: Option<CategoryError>)
      reads this
    {
      match result
      case Ok(next) => error == None && State() == next
      case Err(e) => error == Some(e) && State() == was
    }

    constructor Rehydrate(c: Category)
      ensures State() == c
    {
      id, parent, ancestors, slug, attributes, version := c.id, c.parent, c.ancestors, c.slug, c.attributes, c.version;
    }

    method DefineAttribute(def: Attribute, inherited: seq<Attribute>, descendants: seq<Code>)
      returns (error: Option<CategoryError>)
      modifies this
      ensures Became(old(State()), old(State()).Define(def, inherited, set c | c in descendants), error)
    {
      if def.code == "" { return Some(InvalidCode); }
      if HasCode(inherited, def.code) || def.code in descendants || HasCode(attributes, def.code) {
        return Some(DuplicateAttribute);
      }
      attributes := attributes + [def];
      error := None;
    }

    method RemoveAttribute(code: Code) returns (error: Option<CategoryError>)
      modifies this
      ensures Became(old(State()), old(State()).Remove(code), error)
    {
      var i := 0;
      while i < |attributes| && attributes[i].code != code
        invariant 0 <= i <= |attributes| && forall j :: 0 <= j < i ==> attributes[j].code != code
      {
        i := i + 1;
      }
      if i == |attributes| { return Some(AttributeNotFound); }
      attributes := attributes[..i] + attributes[i + 1..];
      error := None;
    }
  }

  /** Walks the definitions with the set of codes seen so far. */
  method BuildSchema(defs: seq<Attribute>) returns (r: Result<seq<Attribute>, CategoryError>)
    ensures r == NewSchema(defs)
  {
    var seen: set<Code> := {};
    var i := 0;
    while i < |defs|
      invariant 0 <= i <= |defs|
      invariant DistinctCodes(defs[..i])
      invariant forall code :: code in seen <==> exists j :: 0 <= j < i && defs[j].code == code
    {
      if defs[i].code in seen {
        var j :| 0 <= j < i && defs[j].code == defs[i].code;
        return Err(DuplicateAttribute);
      }
      assert defs[..i + 1] == defs[..i] + [defs[i]];
      seen := seen + {defs[i].code};
      i := i + 1;
    }
    assert defs[..i] == defs;
    r := Ok(defs);
  }

  method ClassifyChain(chain: seq<Category>) returns (r: Result<Classification, CategoryError>)
    ensures r == Classify(chain)
  {
    if |chain| == 0 { return Err(NotFound); }
    var defs: seq<Attribute> := [];
    var expected: seq<Reference> := [];
    var i := 0;
    while i < |chain|
      invariant 0 <= i <= |chain|
      invariant expected == Ids(chain)[..i] && defs == Inherited(chain[..i])
      invariant forall j :: 0 <= j < i ==> chain[j].ancestors == Ids(chain)[..j]
    {
      if chain[i].ancestors != expected { return Err(BrokenChain); }
      assert chain[..i + 1][..i] == chain[..i];
      defs := defs + chain[i].attributes;
      expected := expected + [chain[i].id];
      i := i + 1;
    }
    assert chain[..i] == chain;
    var schema := BuildSchema(defs);
    if schema.Err? { return Err(schema.error); }
    var leaf := chain[|chain| - 1];
    r := Ok(Classification(leaf.id, leaf.Path(), schema.value));
  }

  class CategoryStore {
    var categories: Tree

    constructor ()
      ensures categories == map[]
    {
      categories := map[];
    }

    method Save(c: CategoryObject) returns (error: Option<CategoryError>)
      modifies this, c
      ensures match Categories.Save(old(categories), old(c.State()))
        case Ok(next) => error == None && categories == next
          && c.State() == old(c.State()).(version := old(c.version) + 1)
        case Err(e) => error == Some(e) && categories == old(categories) && c.State() == old(c.State())
    {
      var next := c.State();
      if (next.version == 0 && next.id in categories)
         || (next.version > 0 && (next.id !in categories || categories[next.id].version != next.version)) {
        return Some(ConcurrentModification);
      }
      if exists id ::
        id in categories && id != next.id && categories[id].parent == next.parent && categories[id].slug == next.slug {
        return Some(SlugTaken);
      }
      categories := categories[next.id := next.(version := next.version + 1)];
      c.version := c.version + 1;
      error := None;
    }

    method FindChain(id: Reference) returns (r: Result<seq<Category>, CategoryError>)
      ensures r == Chain(categories, id)
    {
      if id !in categories { return Err(NotFound); }
      var path := categories[id].ancestors;
      var found: seq<Category> := [];
      var i := 0;
      while i < |path|
        invariant 0 <= i <= |path| && Lookup(categories, path[..i]) == Ok(found)
      {
        assert path[..i + 1][..i] == path[..i];
        if path[i] !in categories {
          BrokenStays(categories, path, i + 1);
          return Err(BrokenChain);
        }
        found := found + [categories[path[i]]];
        i := i + 1;
      }
      assert path[..i] == path;
      r := Ok(found + [categories[id]]);
    }

    /** The codes defined below a category, in no particular order. */
    method DescendantAttributeCodes(id: Reference) returns (codes: seq<Code>)
      ensures (set c | c in codes) == DescendantCodes(categories, id)
    {
      codes := [];
      var rest := categories.Keys;
      while rest != {}
        invariant rest <= categories.Keys
        invariant forall code :: code in codes <==> exists c, a ::
          c in categories && c !in rest && id in categories[c].ancestors && a in categories[c].attributes
            && a.code == code
        decreases |rest|
      {
        var c :| c in rest;
        if id in categories[c].ancestors {
          var own := CodesOf(categories[c].attributes);
          codes := codes + own;
        }
        rest := rest - {c};
      }
    }

    method CodesOf(attributes: seq<Attribute>) returns (codes: seq<Code>)
      ensures forall code :: code in codes <==> exists a :: a in attributes && a.code == code
    {
      codes := [];
      var i := 0;
      while i < |attributes|
        invariant 0 <= i <= |attributes|
        invariant forall code :: code in codes <==> exists a :: a in attributes[..i] && a.code == code
      {
        codes := codes + [attributes[i].code];
        assert attributes[..i + 1] == attributes[..i] + [attributes[i]];
        i := i + 1;
      }
      assert attributes[..i] == attributes;
    }
  }

  lemma {:induction false} BrokenStays(tree: Tree, path: seq<Reference>, k: nat)
    requires k <= |path| && Lookup(tree, path[..k]).Err?
    ensures Lookup(tree, path) == Lookup(tree, path[..k])
  {
    if k == |path| {
      assert path[..k] == path;
    } else {
      assert path[..|path| - 1][..k] == path[..k];
      BrokenStays(tree, path[..|path| - 1], k);
    }
  }

  /** Loads, reads the schema above and the codes below, changes and saves. */
  method DefineAttribute(store: CategoryStore, id: Reference, def: Attribute) returns (error: Option<CategoryError>)
    modifies store
    ensures match DefineIn(old(store.categories), id, def)
      case Ok(next) => error == None && store.categories == next
      case Err(e) => error == Some(e) && store.categories == old(store.categories)
  {
    if id !in store.categories { return Some(NotFound); }
    var c := new CategoryObject.Rehydrate(store.categories[id]);
    var inherited: seq<Attribute> := [];
    if c.parent != BLANK {
      var chain := store.FindChain(c.parent);
      if chain.Err? { return Some(chain.error); }
      var above := ClassifyChain(chain.value);
      if above.Err? { return Some(above.error); }
      inherited := above.value.schema;
    }
    var descendants := store.DescendantAttributeCodes(id);
    error := c.DefineAttribute(def, inherited, descendants);
    if error != None { return; }
    error := store.Save(c);
  }

  method CreateCategory(store: CategoryStore, id: Reference, slug: string, parent: Reference)
    returns (error: Option<CategoryError>)
    modifies store
    ensures match CreateIn(old(store.categories), id, slug, parent)
      case Ok(next) => error == None && store.categories == next
      case Err(e) => error == Some(e) && store.categories == old(store.categories)
  {
    if parent != BLANK && parent !in store.categories { return Some(NotFound); }
    var created := Create(id, slug, if parent == BLANK then None else Some(store.categories[parent]));
    if created.Err? { return Some(created.error); }
    var c := new CategoryObject.Rehydrate(created.value);
    error := store.Save(c);
  }

  method RemoveAttribute(store: CategoryStore, id: Reference, code: Code) returns (error: Option<CategoryError>)
    modifies store
    ensures match RemoveIn(old(store.categories), id, code)
      case Ok(next) => error == None && store.categories == next
      case Err(e) => error == Some(e) && store.categories == old(store.categories)
  {
    if id !in store.categories { return Some(NotFound); }
    var c := new CategoryObject.Rehydrate(store.categories[id]);
    error := c.RemoveAttribute(code);
    if error != None { return; }
    error := store.Save(c);
  }
}
