/** Clients that load, change and save stock items without locks. The versions alone guarantee that no update is
lost. */
module StockClients {
  import opened Kernel
  import opened StockItems
  import opened StockStore
  import R = Reservations

  /** A loaded or newly opened object, and the commands it has taken since. */
  datatype Client = Client(item: Item, commands: seq<Command>)

  /** The batches of commands that were saved, in the order of the saves. */
  datatype Log = Log(seller: Reference, batches: seq<seq<Command>>)

  datatype World = World(store: Store, clients: map<nat, Client>, logs: map<R.SKU, Log>)

  datatype Step =
    | DoLoad(client: nat, sku: R.SKU)
    | DoOpen(client: nat, sku: R.SKU, seller: Reference)
    | DoChange(client: nat, command: Command)
    | DoSave(client: nat)

  function Batches(logs: map<R.SKU, Log>, sku: R.SKU): seq<seq<Command>> {
    if sku in logs then logs[sku].batches else []
  }

  /** A refused command makes the client give up its object, a refused save does not change anything. */
  function Next(w: World, step: Step): World {
    match step
    case DoLoad(c, sku) => if sku in w.store.items
      then w.(clients := w.clients[c := Client(w.store.items[sku], [])]) else w
    case DoOpen(c, sku, seller) =>
      (match Open(sku, seller)
       case Ok(item) => w.(clients := w.clients[c := Client(item, [])])
       case Err(_) => w)
    case DoChange(c, command) =>
      if c !in w.clients then w
      else (match Perform(w.clients[c].item, command)
        case Ok(item) => w.(clients := w.clients[c := Client(item, w.clients[c].commands + [command])])
        case Err(_) => w.(clients := w.clients - {c}))
    case DoSave(c) =>
      if c !in w.clients then w
      else
        var Client(item, commands) := w.clients[c];
        match AfterSave(w.store, item)
        case Ok(store) =>
          World(store, w.clients[c := Client(Saved(item), [])],
                w.logs[item.sku := Log(item.seller, Batches(w.logs, item.sku) + [commands])])
        case Err(_) => w
  }

  const START: World := World(EMPTY, map[], map[])

  function Run(steps: seq<Step>): World {
    if steps == [] then START else Next(Run(steps[..|steps| - 1]), steps[|steps| - 1])
  }

  // ---------- the same changes, one batch after the other ----------

  function Blank(sku: R.SKU, seller: Reference): Item { Item(sku, seller, 0, 0, [], [], 0) }

  function RunAll(item: Item, commands: seq<Command>): Result<Item, StockError> {
    if commands == [] then Ok(item)
    else match RunAll(item, commands[..|commands| - 1])
      case Err(e) => Err(e)
      case Ok(next) => Perform(next, commands[|commands| - 1])
  }

  /** The item that the batches make of a newly opened one, each batch run as a whole and saved. */
  function Replay(sku: R.SKU, log: Log): Result<Item, StockError>
    decreases |log.batches|
  {
    if log.batches == [] then Ok(Blank(sku, log.seller))
    else match Replay(sku, Log(log.seller, log.batches[..|log.batches| - 1]))
      case Err(e) => Err(e)
      case Ok(base) =>
        match RunAll(base, log.batches[|log.batches| - 1])
        case Err(e) => Err(e)
        case Ok(item) => Ok(Saved(item))
  }

  lemma {:induction false} ExpireEachKeepsIdentity(s: Item, ids: seq<Reference>)
    ensures s.ExpireEach(ids).Ok? ==>
      var t := s.ExpireEach(ids).value; t.sku == s.sku && t.seller == s.seller && t.version == s.version
    decreases |ids|
  {
    if ids != [] && s.Expire(ids[0]).Ok? { ExpireEachKeepsIdentity(s.Expire(ids[0]).value, ids[1..]); }
  }

  lemma PerformKeepsIdentity(s: Item, c: Command)
    ensures Perform(s, c).Ok? ==>
      var t := Perform(s, c).value; t.sku == s.sku && t.seller == s.seller && t.version == s.version
  {
    if c.DoExpireDue? { ExpireEachKeepsIdentity(s, DueIds(s.holds, c.now)); }
  }

  lemma {:induction false} RunKeepsIdentity(s: Item, commands: seq<Command>)
    ensures RunAll(s, commands).Ok? ==>
      var t := RunAll(s, commands).value; t.sku == s.sku && t.seller == s.seller && t.version == s.version
  {
    hide Perform;
    if commands != [] {
      RunKeepsIdentity(s, commands[..|commands| - 1]);
      var init := RunAll(s, commands[..|commands| - 1]);
      if init.Ok? { PerformKeepsIdentity(init.value, commands[|commands| - 1]); }
    }
  }

  lemma {:induction false} ReplayKeepsIdentity(sku: R.SKU, log: Log)
    ensures Replay(sku, log).Ok? ==>
      var t := Replay(sku, log).value; t.sku == sku && t.seller == log.seller && t.version == |log.batches|
    decreases |log.batches|
  {
    hide RunAll;
    if log.batches != [] {
      var init := Log(log.seller, log.batches[..|log.batches| - 1]);
      ReplayKeepsIdentity(sku, init);
      if Replay(sku, init).Ok? { RunKeepsIdentity(Replay(sku, init).value, log.batches[|log.batches| - 1]); }
    }
  }

  /** The stored item is the replay of its log. */
  ghost predicate StoreReplays(store: Store, logs: map<R.SKU, Log>) {
    && store.items.Keys == logs.Keys
    && forall sku :: sku in logs ==>
        logs[sku].batches != [] && Replay(sku, logs[sku]) == Ok(store.items[sku])
  }

  /** The object is what its commands make of the version it was loaded at. */
  ghost predicate Follows(logs: map<R.SKU, Log>, c: Client) {
    var item := c.item;
    if item.version == 0 then RunAll(Blank(item.sku, item.seller), c.commands) == Ok(item)
    else
      && item.sku in logs && item.version <= |logs[item.sku].batches| && item.seller == logs[item.sku].seller
      && (var base := Replay(item.sku, Log(item.seller, logs[item.sku].batches[..item.version]));
          base.Ok? && RunAll(base.value, c.commands) == Ok(item))
  }

  ghost predicate Linear(w: World) {
    StoreReplays(w.store, w.logs) && forall c :: c in w.clients ==> Follows(w.logs, w.clients[c])
  }

  lemma LoadFollows(w: World, sku: R.SKU)
    requires Linear(w) && sku in w.store.items
    ensures Follows(w.logs, Client(w.store.items[sku], []))
  {
    var log := w.logs[sku];
    ReplayKeepsIdentity(sku, log);
    assert log.batches[..|log.batches|] == log.batches;
  }

  lemma ChangeFollows(logs: map<R.SKU, Log>, c: Client, command: Command)
    requires Follows(logs, c) && Perform(c.item, command).Ok?
    ensures Follows(logs, Client(Perform(c.item, command).value, c.commands + [command]))
  {
    hide Perform;
    PerformKeepsIdentity(c.item, command);
    assert (c.commands + [command])[..|c.commands|] == c.commands;
  }

  /** A save that succeeds appends the client's commands to the log of the item, and the stored item is the replay. */
  lemma SaveReplays(w: World, c: Client)
    requires Linear(w) && Follows(w.logs, c) && AfterSave(w.store, c.item).Ok?
    ensures var item := c.item;
      var batches := Batches(w.logs, item.sku);
      && item.version == |batches| && (item.sku in w.logs ==> w.logs[item.sku].seller == item.seller)
      && Replay(item.sku, Log(item.seller, batches + [c.commands])) == Ok(Saved(item))
  {
    hide RunAll;
    var item := c.item;
    var batches := Batches(w.logs, item.sku);
    if item.sku in w.logs { ReplayKeepsIdentity(item.sku, w.logs[item.sku]); }
    assert batches[..|batches|] == batches;
    assert (batches + [c.commands])[..|batches|] == batches;
  }

  /** Longer logs have the same beginnings. */
  lemma FollowsLonger(logs: map<R.SKU, Log>, sku: R.SKU, log: Log, c: Client)
    requires Follows(logs, c) && Batches(logs, sku) <= log.batches && (sku in logs ==> logs[sku].seller == log.seller)
    ensures Follows(logs[sku := log], c)
  {
    hide RunAll, Replay;
    if c.item.version > 0 && c.item.sku == sku {
      assert log.batches[..c.item.version] == logs[sku].batches[..c.item.version];
    }
  }

  lemma SaveIsLinear(w: World, id: nat)
    requires Linear(w) && id in w.clients
    ensures Linear(Next(w, DoSave(id)))
  {
    hide Replay, RunAll;
    var c := w.clients[id];
    var item := c.item;
    if AfterSave(w.store, item).Ok? {
      var next := Next(w, DoSave(id));
      var batches := Batches(w.logs, item.sku);
      var log := Log(item.seller, batches + [c.commands]);
      SaveReplays(w, c);
      forall k | k in next.clients ensures Follows(next.logs, next.clients[k]) {
        if k == id {
          assert log.batches[..|batches| + 1] == log.batches;
          assert RunAll(Saved(item), []) == Ok(Saved(item)) by { NothingRun(Saved(item)); }
        } else {
          FollowsLonger(w.logs, item.sku, log, w.clients[k]);
        }
      }
    }
  }

  lemma NothingRun(item: Item)
    ensures RunAll(item, []) == Ok(item)
  {
  }

  lemma NextIsLinear(w: World, step: Step)
    requires Linear(w)
    ensures Linear(Next(w, step))
  {
    hide Perform, Replay, RunAll;
    match step
    case DoLoad(c, sku) => if sku in w.store.items { LoadFollows(w, sku); }
    case DoOpen(c, sku, seller) => NothingRun(Blank(sku, seller));
    case DoChange(c, command) =>
      if c in w.clients && Perform(w.clients[c].item, command).Ok? { ChangeFollows(w.logs, w.clients[c], command); }
    case DoSave(c) => if c in w.clients { SaveIsLinear(w, c); }
  }

  lemma {:induction false} RunsAreLinear(steps: seq<Step>)
    ensures Linear(Run(steps))
  {
    hide Next;
    if steps != [] {
      RunsAreLinear(steps[..|steps| - 1]);
      NextIsLinear(Run(steps[..|steps| - 1]), steps[|steps| - 1]);
    }
  }

  /** However the clients interleave, every stored item is what the saved batches make of a new item when they run one
      after the other in the order of their saves, and its version counts them. */
  lemma NoUpdateIsLost(steps: seq<Step>, sku: R.SKU)
    requires sku in Run(steps).store.items
    ensures var w := Run(steps);
      && sku in w.logs && Replay(sku, w.logs[sku]) == Ok(w.store.items[sku])
      && w.store.items[sku].version == |w.logs[sku].batches|
  {
    RunsAreLinear(steps);
    ReplayKeepsIdentity(sku, Run(steps).logs[sku]);
  }

  /** A save succeeds exactly when nobody else has saved the item since it was loaded. */
  lemma SaveNeedsLatest(steps: seq<Step>, id: nat)
    requires id in Run(steps).clients
    ensures var w := Run(steps);
      var item := w.clients[id].item;
      AfterSave(w.store, item).Ok? <==> item.version == |Batches(w.logs, item.sku)|
  {
    RunsAreLinear(steps);
    var w := Run(steps);
    var item := w.clients[id].item;
    hide Run, Replay, RunAll;
    if item.sku in w.logs { ReplayKeepsIdentity(item.sku, w.logs[item.sku]); }
  }
}
