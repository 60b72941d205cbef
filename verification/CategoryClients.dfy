/** Clients that load, check and save categories without locks. A version guards one category, while the codes that a
new attribute must not clash with are on others. */
module CategoryClients {
  import opened Kernel
  import opened Categories

  /** A definition was checked against what was read of the categories above and below; any other edit adds nothing. */
  datatype Edit = Defines(def: Attribute, above: seq<Attribute>, below: set<Code>) | Lessens

  datatype Client =
    | Loaded(base: Category, above: Option<seq<Attribute>>, below: Option<set<Code>>)
    | Edited(base: Category, draft: Category, edit: Edit)
    | Created(draft: Category)

  datatype World = World(tree: Tree, clients: map<nat, Client>)

  /** What a client does with a loaded category. */
  datatype Task = ReadAbove | ReadBelow | Define(def: Attribute) | Remove(code: Code) | Rename(slug: string)

  /** Each step reads or writes the store once at most. */
  datatype Step =
    | DoLoad(client: nat, id: Reference)
    | DoNew(client: nat, id: Reference, slug: string, parent: Reference)
    | DoWork(client: nat, task: Task)
    | DoSave(client: nat)

  /** What an error leaves: the client gives up. */
  function Take(w: World, c: nat, next: Result<Client, CategoryError>): World {
    match next
    case Ok(client) => w.(clients := w.clients[c := client])
    case Err(_) => w.(clients := w.clients - {c})
  }

  function EditOf(base: Category, draft: Result<Category, CategoryError>, edit: Edit): Result<Client, CategoryError> {
    match draft
    case Ok(c) => Ok(Edited(base, c, edit))
    case Err(e) => Err(e)
  }

  function Next(w: World, step: Step): World {
    match step
    case DoLoad(c, id) => Take(w, c, if id in w.tree then Ok(Loaded(w.tree[id], None, None)) else Err(NotFound))
    case DoNew(c, id, slug, parent) =>
      if parent != BLANK && parent !in w.tree then Take(w, c, Err(NotFound))
      else (match Create(id, slug, if parent == BLANK then None else Some(w.tree[parent]))
        case Ok(created) => Take(w, c, Ok(Created(created)))
        case Err(e) => Take(w, c, Err(e)))
    case DoWork(c, task) =>
      if c in w.clients && w.clients[c].Loaded? then Take(w, c, Perform(w.tree, w.clients[c], task)) else w
    case DoSave(c) => if c in w.clients then SaveBy(w, c) else w
  }

  function Perform(tree: Tree, client: Client, task: Task): Result<Client, CategoryError>
    requires client.Loaded?
  {
    var Loaded(base, above, below) := client;
    match task
    case ReadAbove =>
      (match SchemaAbove(tree, base)
       case Ok(schema) => Ok(Loaded(base, Some(schema), below))
       case Err(e) => Err(e))
    case ReadBelow => Ok(Loaded(base, above, Some(DescendantCodes(tree, base.id))))
    case Define(def) =>
      if above == None || below == None then Ok(client)
      else EditOf(base, base.Define(def, above.value, below.value), Defines(def, above.value, below.value))
    case Remove(code) => EditOf(base, base.Remove(code), Lessens)
    case Rename(slug) => Ok(Edited(base, base.(slug := slug), Lessens))
  }

  function SaveBy(w: World, c: nat): World
    requires c in w.clients
  {
    if w.clients[c].Loaded? then w
    else match Save(w.tree, w.clients[c].draft)
      case Ok(tree) => World(tree, w.clients - {c})
      case Err(_) => w.(clients := w.clients - {c})
  }

  const START: World := World(map[], map[])

  function Run(steps: seq<Step>): World {
    if steps == [] then START else Next(Run(steps[..|steps| - 1]), steps[|steps| - 1])
  }

  // ---------- what holds however the clients interleave ----------

  /** The category was stored like this, and is so still while its version is the same. */
  ghost predicate Known(tree: Tree, c: Category) {
    && c.id in tree && 0 < c.version <= tree[c.id].version
    && (c.version == tree[c.id].version ==> tree[c.id] == c)
  }

  /** No code is new, and none is repeated. */
  ghost predicate Lessened(c: Category, base: Category) {
    && (forall j :: 0 <= j < |c.attributes| ==> c.attributes[j] in base.attributes)
    && (DistinctCodes(base.attributes) ==> DistinctCodes(c.attributes))
  }

  ghost predicate Sound(tree: Tree, client: Client) {
    match client
    case Loaded(base, _, _) => Known(tree, base)
    case Edited(base, draft, edit) =>
      && Known(tree, base) && draft == base.(slug := draft.slug, attributes := draft.attributes)
      && (match edit
          case Defines(def, above, below) => base.Define(def, above, below) == Ok(draft)
          case Lessens => Lessened(draft, base))
    case Created(draft) => draft.version == 0 && draft.attributes == [] && Placed(tree, draft.(version := 1))
  }

  ghost predicate SoundWorld(w: World) {
    && Rooted(w.tree) && OwnDistinct(w.tree)
    && forall c :: c in w.clients ==> Sound(w.tree, w.clients[c])
  }

  lemma RemovalLessens(c: Category, code: Code)
    requires c.Remove(code).Ok?
    ensures Lessened(c.Remove(code).value, c)
  {
    var i := FindCode(c.attributes, code);
    var left := c.Remove(code).value.attributes;
    assert forall j :: 0 <= j < |left| ==> left[j] == c.attributes[if j < i then j else j + 1];
  }

  lemma PerformIsSound(tree: Tree, client: Client, task: Task)
    requires client.Loaded? && Sound(tree, client)
    ensures Perform(tree, client, task).Ok? ==> Sound(tree, Perform(tree, client, task).value)
  {
    if task.Remove? && client.base.Remove(task.code).Ok? { RemovalLessens(client.base, task.code); }
  }

  lemma NewIsSound(tree: Tree, id: Reference, slug: string, parent: Reference)
    requires Rooted(tree) && (parent != BLANK ==> parent in tree)
    ensures var r := Create(id, slug, if parent == BLANK then None else Some(tree[parent]));
      r.Ok? ==> Sound(tree, Created(r.value))
  {
    if parent != BLANK { assert Placed(tree, tree[parent]); }
  }

  /** A save that succeeds replaces the category that was loaded, or adds a new one. */
  lemma SaveReplaces(w: World, c: nat)
    requires SoundWorld(w) && c in w.clients && !w.clients[c].Loaded? && Save(w.tree, w.clients[c].draft).Ok?
    ensures var draft := w.clients[c].draft;
      Save(w.tree, draft).value == w.tree[draft.id := draft.(version := draft.version + 1)]
    ensures w.clients[c].Edited? ==>
      w.tree[w.clients[c].base.id] == w.clients[c].base && w.clients[c].draft.id == w.clients[c].base.id
    ensures w.clients[c].Created? ==> w.clients[c].draft.id !in w.tree
  {
  }

  lemma EditedIsDistinct(client: Client)
    requires client.Edited? && DistinctCodes(client.base.attributes)
    requires client.edit.Lessens? ==> Lessened(client.draft, client.base)
    requires client.edit.Defines?
      ==> client.base.Define(client.edit.def, client.edit.above, client.edit.below) == Ok(client.draft)
    ensures DistinctCodes(client.draft.attributes)
  {
    if client.edit.Defines? { DefinedIsDistinct(client.base.attributes, client.edit.def); }
  }

  lemma AddedKeepsRooted(tree: Tree, c: Category)
    requires Rooted(tree) && c.id !in tree && Placed(tree, c)
    ensures Rooted(tree[c.id := c])
  {
    var next := tree[c.id := c];
    forall k | k in next ensures next[k].id == k && Placed(next, next[k]) {
      assert k != c.id ==> Placed(tree, tree[k]);
    }
  }

  lemma SavedTreeIsSound(w: World, c: nat)
    requires SoundWorld(w) && c in w.clients && !w.clients[c].Loaded? && Save(w.tree, w.clients[c].draft).Ok?
    ensures Rooted(Save(w.tree, w.clients[c].draft).value) && OwnDistinct(Save(w.tree, w.clients[c].draft).value)
  {
    var client := w.clients[c];
    var stored := client.draft.(version := client.draft.version + 1);
    SaveReplaces(w, c);
    assert Sound(w.tree, client);
    hide Rooted, DistinctCodes, Lessened, Save;
    if client.Edited? {
      ReplaceKeepsRooted(w.tree, stored.id, stored);
      EditedIsDistinct(client);
    } else {
      assert DistinctCodes([]) by { NothingRepeats(); }
      AddedKeepsRooted(w.tree, stored);
    }
  }

  lemma NothingRepeats()
    ensures DistinctCodes([])
  {
  }

  lemma SaveIsSound(w: World, c: nat)
    requires SoundWorld(w) && c in w.clients
    ensures SoundWorld(SaveBy(w, c))
  {
    if !w.clients[c].Loaded? && Save(w.tree, w.clients[c].draft).Ok? {
      var stored := w.clients[c].draft.(version := w.clients[c].draft.version + 1);
      SaveReplaces(w, c);
      SavedTreeIsSound(w, c);
      assert Sound(w.tree, w.clients[c]);
      assert w.clients[c].Created? ==> stored.id !in w.tree;
      hide Rooted, OwnDistinct, Placed, Save;
      forall k | k in w.clients && k != c ensures Sound(w.tree[stored.id := stored], w.clients[k]) {
        OthersStaySound(w.tree, stored, w.clients[k]);
      }
    }
  }

  lemma OthersStaySound(tree: Tree, stored: Category, other: Client)
    requires Sound(tree, other) && Rooted(tree)
    requires stored.id in tree ==>
      tree[stored.id].version < stored.version && tree[stored.id].ancestors == stored.ancestors
    ensures Sound(tree[stored.id := stored], other)
  {
    if other.Created? { assert other.draft.parent in tree ==> tree[other.draft.parent].id == other.draft.parent; }
  }

  lemma NextIsSound(w: World, step: Step)
    requires SoundWorld(w)
    ensures SoundWorld(Next(w, step))
  {
    hide Rooted, OwnDistinct, Sound, Perform, SaveBy, Create;
    match step
    case DoLoad(_, id) => if id in w.tree { LoadIsSound(w, id); }
    case DoNew(_, id, slug, parent) => if parent != BLANK ==> parent in w.tree { NewIsSound(w.tree, id, slug, parent); }
    case DoWork(c, task) => if c in w.clients && w.clients[c].Loaded? { PerformIsSound(w.tree, w.clients[c], task); }
    case DoSave(c) => if c in w.clients { SaveIsSound(w, c); }
  }

  lemma LoadIsSound(w: World, id: Reference)
    requires Rooted(w.tree) && id in w.tree
    ensures Sound(w.tree, Loaded(w.tree[id], None, None))
  {
    assert Placed(w.tree, w.tree[id]);
  }

  lemma {:induction false} RunsAreSound(steps: seq<Step>)
    ensures SoundWorld(Run(steps))
  {
    if steps != [] {
      hide SoundWorld, Next;
      RunsAreSound(steps[..|steps| - 1]);
      NextIsSound(Run(steps[..|steps| - 1]), steps[|steps| - 1]);
    } else {
      assert SoundWorld(START);
    }
  }

  // ---------- exactly when a save clashes ----------

  /** No category above or below has the code. */
  ghost predicate Free(tree: Tree, id: Reference, code: Code)
    requires id in tree
  {
    forall d :: d in tree && (d in tree[id].ancestors || id in tree[d].ancestors) ==> !HasCode(tree[d].attributes, code)
  }

  /** The step saves a definition whose code is, by now, on a category above or below. */
  ghost predicate Clashes(w: World, step: Step) {
    && step.DoSave? && step.client in w.clients
    && w.clients[step.client].Edited? && w.clients[step.client].edit.Defines?
    && Save(w.tree, w.clients[step.client].draft).Ok?
    && w.clients[step.client].base.id in w.tree
    && !Free(w.tree, w.clients[step.client].base.id, w.clients[step.client].edit.def.code)
  }

  lemma LessenedKeepsForest(tree: Tree, c: Category)
    requires Forest(tree) && c.id in tree && c.version > 0 && Lessened(c, tree[c.id])
    requires c == tree[c.id].(slug := c.slug, attributes := c.attributes, version := c.version)
    ensures Forest(tree[c.id := c])
  {
    var was := tree[c.id];
    forall k | 0 <= k < |c.ancestors| && c.ancestors[k] in tree ensures Disjoint(tree[c.ancestors[k]], c) {
      assert Disjoint(tree[was.ancestors[k]], was);
    }
    forall d | d in tree && c.id in tree[d].ancestors ensures Disjoint(c, tree[d]) {
      var k :| 0 <= k < |tree[d].ancestors| && tree[d].ancestors[k] == c.id;
      assert Disjoint(was, tree[d]);
    }
    ReplaceKeepsForest(tree, c.id, c);
  }

  lemma EmptyKeepsForest(tree: Tree, c: Category)
    requires Forest(tree) && c.id !in tree && Placed(tree, c) && c.attributes == []
    ensures Forest(tree[c.id := c])
  {
    AddedKeepsRooted(tree, c);
    var next := tree[c.id := c];
    forall d, k | d in next && 0 <= k < |next[d].ancestors| && next[d].ancestors[k] in next
      ensures Disjoint(next[next[d].ancestors[k]], next[d])
    {
      if d != c.id && next[d].ancestors[k] != c.id { assert Disjoint(tree[tree[d].ancestors[k]], tree[d]); }
    }
  }

  lemma DefinitionKeepsForestExactly(tree: Tree, c: Category, def: Attribute)
    requires Forest(tree) && c.id in tree && c.version > 0 && !HasCode(tree[c.id].attributes, def.code)
    requires c == tree[c.id].(attributes := tree[c.id].attributes + [def], version := c.version)
    ensures Forest(tree[c.id := c]) <==> Free(tree, c.id, def.code)
  {
    var was := tree[c.id];
    if Free(tree, c.id, def.code) {
      DefinedIsDistinct(was.attributes, def);
      forall k | 0 <= k < |c.ancestors| && c.ancestors[k] in tree ensures Disjoint(tree[c.ancestors[k]], c) {
        assert Disjoint(tree[was.ancestors[k]], was) && was.ancestors[k] in was.ancestors;
      }
      forall d | d in tree && c.id in tree[d].ancestors ensures Disjoint(c, tree[d]) {
        var k :| 0 <= k < |tree[d].ancestors| && tree[d].ancestors[k] == c.id;
        assert Disjoint(was, tree[d]);
      }
      ReplaceKeepsForest(tree, c.id, c);
    } else {
      var d :| d in tree && (d in was.ancestors || c.id in tree[d].ancestors) && HasCode(tree[d].attributes, def.code);
      TakenCodeClashes(tree, c, def, d);
    }
  }

  lemma TakenCodeClashes(tree: Tree, c: Category, def: Attribute, d: Reference)
    requires Rooted(tree) && c.id in tree && d in tree && d != c.id && HasCode(tree[d].attributes, def.code)
    requires d in c.ancestors || c.id in tree[d].ancestors
    requires c.attributes != [] && c.attributes[|c.attributes| - 1] == def
    ensures !Clashless(tree[c.id := c])
  {
    var next := tree[c.id := c];
    var i :| 0 <= i < |tree[d].attributes| && tree[d].attributes[i].code == def.code;
    if d in c.ancestors {
      var k :| 0 <= k < |c.ancestors| && c.ancestors[k] == d;
      assert !Disjoint(next[next[c.id].ancestors[k]], next[c.id]);
    } else {
      var k :| 0 <= k < |tree[d].ancestors| && tree[d].ancestors[k] == c.id;
      assert !Disjoint(next[next[d].ancestors[k]], next[d]);
    }
  }

  /** Whatever was read and whenever: a save keeps the forest exactly when it does not put a code where, by now, a
      category above or below has it. */
  lemma SaveKeepsForestExactly(w: World, c: nat)
    requires SoundWorld(w) && Forest(w.tree) && c in w.clients
    ensures Forest(SaveBy(w, c).tree) <==> !Clashes(w, DoSave(c))
  {
    hide Rooted, Forest, Clashless, Placed, OwnDistinct, Lessened, Free;
    var client := w.clients[c];
    if !client.Loaded? && Save(w.tree, client.draft).Ok? {
      SaveReplaces(w, c);
      var stored := client.draft.(version := client.draft.version + 1);
      assert Sound(w.tree, client);
      match client
      case Created(_) => EmptyKeepsForest(w.tree, stored);
      case Edited(base, draft, Lessens) =>
        StoredLessened(draft, base);
        LessenedKeepsForest(w.tree, stored);
      case Edited(base, draft, Defines(def, _, _)) => DefinitionKeepsForestExactly(w.tree, stored, def);
    }
  }

  lemma StoredLessened(draft: Category, base: Category)
    requires Lessened(draft, base)
    ensures Lessened(draft.(version := draft.version + 1), base)
  {
  }

  lemma StepKeepsForestExactly(w: World, step: Step)
    requires SoundWorld(w) && Forest(w.tree)
    ensures Forest(Next(w, step).tree) <==> !Clashes(w, step)
  {
    hide SoundWorld, Forest, Free, Perform, SaveBy, Create;
    if step.DoSave? && step.client in w.clients { SaveKeepsForestExactly(w, step.client); }
  }

  /** No step of the run clashes. */
  ghost predicate NeverClashes(steps: seq<Step>) {
    steps == [] || (var k := |steps| - 1; NeverClashes(steps[..k]) && !Clashes(Run(steps[..k]), steps[k]))
  }

  /** Every category classifies, at the end of the run and before each of its steps. */
  ghost predicate AlwaysClassifies(steps: seq<Step>) {
    EveryClassifies(Run(steps).tree) && (steps == [] || AlwaysClassifies(steps[..|steps| - 1]))
  }

  /** However clients interleave: every category classifies throughout the run exactly when no definition is saved whose
      code is, at that moment, on a category above or below. */
  lemma {:induction false} ClassifiesExactly(steps: seq<Step>)
    ensures AlwaysClassifies(steps) <==> NeverClashes(steps)
  {
    hide Clashes, EveryClassifies;
    if steps == [] {
      assert EveryClassifies(START.tree) by { NothingClassifies(); }
    } else {
      hide Run;
      var init := steps[..|steps| - 1];
      ClassifiesExactly(init);
      if AlwaysClassifies(init) { LastClassifiesExactly(steps); }
    }
  }

  lemma NothingClassifies()
    ensures EveryClassifies(map[])
  {
  }

  lemma RunClassifiesExactly(steps: seq<Step>)
    ensures EveryClassifies(Run(steps).tree) <==> Forest(Run(steps).tree)
  {
    RunsAreSound(steps);
    hide Rooted, Forest, Run, OwnDistinct, EveryClassifies;
    ClassifyExactlyInForest(Run(steps).tree);
  }

  lemma LastClassifiesExactly(steps: seq<Step>)
    requires steps != [] && EveryClassifies(Run(steps[..|steps| - 1]).tree)
    ensures EveryClassifies(Run(steps).tree) <==> !Clashes(Run(steps[..|steps| - 1]), steps[|steps| - 1])
  {
    var init := steps[..|steps| - 1];
    RunsAreSound(init);
    RunClassifiesExactly(init);
    RunClassifiesExactly(steps);
    hide SoundWorld, EveryClassifies, Forest, Clashes, Next;
    StepKeepsForestExactly(Run(init), steps[|steps| - 1]);
  }

  /** What was read is out of date where a save clashes: a definition that is checked against the tree it is saved to
      never does. */
  lemma ClashingReadsAreStale(w: World, c: nat)
    requires SoundWorld(w) && Forest(w.tree) && Clashes(w, DoSave(c))
    ensures var Edited(base, _, Defines(_, above, below)) := w.clients[c];
      SchemaAbove(w.tree, base) != Ok(above) || DescendantCodes(w.tree, base.id) != below
  {
    hide Rooted, Forest, Clashless, Placed, OwnDistinct, Known, Classify, SchemaAbove, DescendantCodes;
    var Edited(base, draft, Defines(def, above, below)) := w.clients[c];
    assert Sound(w.tree, w.clients[c]);
    SaveReplaces(w, c);
    if SchemaAbove(w.tree, base) == Ok(above) && DescendantCodes(w.tree, base.id) == below {
      assert Defined(w.tree, base.id, def) == Ok(draft);
      DefineKeepsForest(w.tree, base.id, def);
      assert DefineIn(w.tree, base.id, def) == Save(w.tree, draft);
      SaveKeepsForestExactly(w, c);
    }
  }

  // ---------- a run that clashes ----------

  const ROOT: Reference := 1
  const CHILD: Reference := 2

  lemma Go(steps: seq<Step>, step: Step) returns (more: seq<Step>)
    ensures more == steps + [step] && Run(more) == Next(Run(steps), step)
  {
    more := steps + [step];
    assert more[..|more| - 1] == steps;
  }

  function Root(attributes: seq<Attribute>, version: nat): Category {
    Category(ROOT, BLANK, "root", [], attributes, version)
  }
  function Child(attributes: seq<Attribute>, version: nat): Category {
    Category(CHILD, ROOT, "child", [ROOT], attributes, version)
  }

  /** A category without others below it is checked and a definition of it is ready to be saved. */
  lemma Prepared(steps: seq<Step>, c: nat, base: Category, def: Attribute) returns (more: seq<Step>)
    requires def.code != "" && base.attributes == []
    requires var w := Run(steps);
      base.id in w.tree && w.tree[base.id] == base && SchemaAbove(w.tree, base) == Ok([])
        && DescendantCodes(w.tree, base.id) == {}
    ensures Run(more) == Run(steps).(clients :=
      Run(steps).clients[c := Edited(base, base.(attributes := [def]), Defines(def, [], {}))])
  {
    hide Run, SchemaAbove, DescendantCodes;
    more := Go(steps, DoLoad(c, base.id));
    more := Go(more, DoWork(c, ReadAbove));
    more := Go(more, DoWork(c, ReadBelow));
    more := Go(more, DoWork(c, Define(def)));
    assert [] + [def] == [def];
    assert base.Define(def, [], {}) == Ok(base.(attributes := [def]));
  }

  lemma RootStored() returns (steps: seq<Step>)
    ensures Run(steps) == World(map[ROOT := Root([], 1)], map[])
  {
    steps := Go([], DoNew(0, ROOT, "root", BLANK));
    steps := Go(steps, DoSave(0));
  }

  /** While a definition for the root waits to be saved, a category below it is created. */
  lemma ChildStored(def: Attribute) returns (steps: seq<Step>)
    requires def.code != ""
    ensures Run(steps).tree == map[ROOT := Root([], 1), CHILD := Child([], 1)]
    ensures Run(steps).clients == map[1 := Edited(Root([], 1), Root([def], 1), Defines(def, [], {}))]
  {
    steps := RootStored();
    steps := Prepared(steps, 1, Root([], 1), def);
    hide Run;
    steps := Go(steps, DoNew(2, CHILD, "child", ROOT));
    steps := Go(steps, DoSave(2));
    assert [] + [ROOT] == [ROOT];
  }

  lemma NothingAboveChild(tree: Tree)
    requires tree == map[ROOT := Root([], 1), CHILD := Child([], 1)]
    ensures SchemaAbove(tree, Child([], 1)) == Ok([]) && DescendantCodes(tree, CHILD) == {}
  {
    assert Chain(tree, ROOT) == Ok([tree[ROOT]]) by { assert [] + [tree[ROOT]] == [tree[ROOT]]; }
    assert Inherited([tree[ROOT]]) == [] by { assert [tree[ROOT]][..0] == []; }
  }

  /** The code is defined there too, and both saves succeed: neither check could see the other definition. */
  lemma CodeDefinedMeanwhile(def: Attribute) returns (steps: seq<Step>)
    requires def.code != ""
    ensures CHILD in Run(steps).tree && Classified(Run(steps).tree, CHILD) == Err(DuplicateAttribute)
  {
    hide Run, Classified, Save, SchemaAbove, DescendantCodes;
    steps := ChildStored(def);
    NothingAboveChild(Run(steps).tree);
    steps := Prepared(steps, 3, Child([], 1), def);
    SaveChild(def);
    steps := Go(steps, DoSave(3));
    SaveRoot(def);
    steps := Go(steps, DoSave(1));
    BothClash(def);
  }

  lemma SaveChild(def: Attribute)
    ensures Save(map[ROOT := Root([], 1), CHILD := Child([], 1)], Child([def], 1))
         == Ok(map[ROOT := Root([], 1), CHILD := Child([def], 2)])
  {
    var tree := map[ROOT := Root([], 1), CHILD := Child([], 1)];
    assert tree[CHILD := Child([def], 2)] == map[ROOT := Root([], 1), CHILD := Child([def], 2)];
  }

  lemma SaveRoot(def: Attribute)
    ensures Save(map[ROOT := Root([], 1), CHILD := Child([def], 2)], Root([def], 1))
         == Ok(map[ROOT := Root([def], 2), CHILD := Child([def], 2)])
  {
    var tree := map[ROOT := Root([], 1), CHILD := Child([def], 2)];
    assert tree[ROOT := Root([def], 2)] == map[ROOT := Root([def], 2), CHILD := Child([def], 2)];
  }

  lemma BothClash(def: Attribute)
    ensures Classified(map[ROOT := Root([def], 2), CHILD := Child([def], 2)], CHILD) == Err(DuplicateAttribute)
  {
    var tree := map[ROOT := Root([def], 2), CHILD := Child([def], 2)];
    assert [] + [ROOT] == [ROOT];
    ClashingChain(tree, CHILD, 0, 0, 0);
  }
}
