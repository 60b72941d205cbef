/** The inventory command handlers, working on loaded objects in a unit of work that is rolled back on any error. */
module InventoryHandlers {
  import opened Kernel
  import opened Sorting
  import opened StockItems
  import opened StockStore
  import C = StockCommands
  import R = Reservations

  method Apply(item: StockItem, c: Command) returns (error: Option<StockError>)
    modifies item
    ensures match Perform(old(item.State()), c)
      case Ok(next) => error == None && item.State() == next
      case Err(e) => error == Some(e)
  {
    match c
    case DoRestock(seller, quantity, reference) => error := item.Restock(seller, quantity, reference);
    case DoSetAvailable(seller, target, reference) => error := item.SetAvailable(seller, target, reference);
    case DoReserve(id, order, quantity, expiresAt, now) => error := item.Reserve(id, order, quantity, expiresAt, now);
    case DoCommit(id) => error := item.Resolve(id, R.Committed);
    case DoRelease(id) => error := item.Resolve(id, R.Released);
    case DoExpire(id) => error := item.Resolve(id, R.Expired);
    case DoRestore(id) => error := item.Restore(id);
    case DoExpireDue(now) => var _, failure := item.ExpireDue(now); error := failure;
    case DoReturn(reference, quantity) => error := item.ReturnUnits(reference, quantity);
  }

  class Inventory {
    const store: MemoryStore

    constructor (store: MemoryStore)
      ensures this.store == store
    {
      this.store := store;
    }

    /** The loaded objects still are what is stored under `keys`. */
    ghost predicate Fresh(loaded: seq<StockItem>, keys: seq<R.SKU>, from: nat)
      requires |loaded| == |keys|
      reads store, loaded
    {
      forall j :: from <= j < |keys| ==> keys[j] in store.items && loaded[j].State() == store.items[keys[j]]
    }

    static ghost predicate Separate(loaded: seq<StockItem>, keys: seq<R.SKU>) {
      && NoRepeat(loaded)
      && NoRepeat(keys)
    }

    /** Changes and saves one loaded item. */
    method ChangeOne(item: StockItem, ghost sku: R.SKU, c: Command) returns (error: Option<StockError>)
      requires Sound(store.State()) && sku in store.items && item.State() == store.items[sku]
      modifies store, item
      ensures match Perform(old(store.items)[sku], c)
        case Err(e) => error == Some(e)
        case Ok(next) =>
          && error == None && Sound(store.State())
          && AfterSave(old(store.State()), next) == Ok(store.State())
            && store.items == old(store.items)[sku := Saved(next)]
    {
      hide Perform, Sane;
      assert Stored(sku, store.items[sku]);
      ghost var was := store.State();
      error := Apply(item, c);
      if error != None { return; }
      C.SaveLoaded(was, sku, c);
      error := store.Save(item);
    }

    /** Changes and saves one loaded item after the other. */
    method ChangeEach(loaded: seq<StockItem>, ghost keys: seq<R.SKU>, commands: seq<Command>)
      returns (error: Option<StockError>)
      requires |loaded| == |keys| == |commands| && Separate(loaded, keys)
      requires Sound(store.State()) && Fresh(loaded, keys, 0)
      modifies store, loaded
      ensures forall k :: k in keys ==> k in old(store.items)
      ensures match C.ApplyEach(old(store.State()), keys, commands)
        case Ok(next) => error == None && store.State() == next
        case Err(e) => error == Some(e)
    {
      hide Perform, Sound, AfterSave, SortedKeys, Sort;
      var i := 0;
      assert forall k :: k in keys ==> k in store.items by {
        forall k | k in keys ensures k in store.items { var j :| 0 <= j < |keys| && keys[j] == k; }
      }
      assert keys[0..] == keys && commands[0..] == commands;
      while i < |loaded|
        invariant 0 <= i <= |loaded|
        invariant Sound(store.State()) && Fresh(loaded, keys, i)
        invariant forall k :: k in keys[i..] ==> k in store.items
        invariant C.ApplyEach(store.State(), keys[i..], commands[i..]) == C.ApplyEach(old(store.State()), keys,
          commands)
      {
        assert keys[i..][1..] == keys[i + 1..] && commands[i..][1..] == commands[i + 1..];
        error := ChangeOne(loaded[i], keys[i], commands[i]);
        if error != None { return; }
        i := i + 1;
      }
      error := None;
    }

    /** A unit of work has either taken effect or left the store as it was. */
    ghost predicate Did(was: Store, result: Result<Store, StockError>, error: Option<StockError>)
      reads store
    {
      match result
      case Ok(next) => error == None && store.State() == next
      case Err(e) => error == Some(e) && store.State() == was
    }

    /** Commit, release and restore: `c` is the command for the reservation `id`. */
    method Resolve(id: Reference, c: Command) returns (error: Option<StockError>)
      requires Sound(store.State())
      modifies store
      ensures Did(old(store.State()), C.ResolveAll(old(store.State()), id, c), error)
    {
      hide Perform, SortedKeys, C.ApplyEach, Sane, C.HasHold;
      var items, ledger := store.items, store.ledger;
      C.KeysAreStored(store.State(), C.HasHold(id));
      assert forall sku :: sku in store.items ==> Stored(sku, store.items[sku]);
      var loaded, keys := store.Load(C.HasHold(id), 0);
      if |loaded| == 0 { return Some(ReservationNotFound); }
      error := ChangeEach(loaded, keys, C.Repeat(c, |loaded|));
      if error != None { store.items, store.ledger := items, ledger; }
    }

    method ExpireReservations(now: Time, limit: int) returns (error: Option<StockError>)
      requires Sound(store.State())
      modifies store
      ensures Did(old(store.State()), C.ExpireBatch(old(store.State()), now, limit), error)
    {
      hide Perform, SortedKeys;
      var items, ledger := store.items, store.ledger;
      C.KeysAreStored(store.State(), C.HasDue(now));
      assert forall sku :: sku in store.items ==> Stored(sku, store.items[sku]);
      var loaded, keys := store.Load(C.HasDue(now), if limit <= 0 then C.EXPIRY_BATCH else limit);
      error := ChangeEach(loaded, keys, C.Repeat(DoExpireDue(now), |loaded|));
      if error != None { store.items, store.ledger := items, ledger; }
    }

    /** Locks the items of the request, one for each of its lines. */
    method Lock(skus: seq<R.SKU>) returns (loaded: Result<seq<StockItem>, StockError>)
      requires Sound(store.State()) && Ascending(skus)
      ensures loaded.Ok? <==> forall k :: k in skus ==> k in store.items
      ensures loaded.Err? ==> loaded.error == StockNotFound
      ensures loaded.Ok? ==>
        && |loaded.value| == |skus| && Separate(loaded.value, skus) && Fresh(loaded.value, skus, 0)
        && forall i :: 0 <= i < |skus| ==> fresh(loaded.value[i])
    {
      hide Perform, SortedKeys;
      C.LockFindsAll(store.State(), skus);
      AscendingIsDistinct(skus);
      assert forall sku :: sku in store.items ==> Stored(sku, store.items[sku]);
      var items, keys := store.Load(C.Requested(skus), |skus|);
      C.LockFinds(store.State(), skus);
      loaded := if |items| != |skus| then Err(StockNotFound) else Ok(items);
    }

    method ReturnStock(request: seq<C.Line>, reference: Reference) returns (error: Option<StockError>)
      requires Sound(store.State())
      modifies store
      ensures Did(old(store.State()), C.ReturnLines(old(store.State()), request, reference), error)
    {
      hide Perform, SortedKeys, Sound, C.ApplyEach, C.ParseLines, C.Parsed, C.Skus;
      var parsed := C.ParseLines(request);
      if parsed.Err? { return Some(parsed.error); }
      var lines := parsed.value;
      C.ParseSorts(request);
      C.ParsedMeans(lines);
      if reference == BLANK { return Some(InvalidReference); }
      var items, ledger := store.items, store.ledger;
      var locked := Lock(C.Skus(lines));
      C.LinesAreStored(store.State(), lines);
      if locked.Err? { return Some(locked.error); }
      error := ChangeEach(locked.value, C.Skus(lines), C.ReturnCommands(lines, reference));
      if error != None { store.items, store.ledger := items, ledger; }
    }

    method SetStock(sku: R.SKU, quantity: int, reference: Reference) returns (error: Option<StockError>)
      requires Sound(store.State())
      modifies store
      ensures Did(old(store.State()), C.SetStock(old(store.State()), sku, quantity, reference), error)
    {
      if quantity < 0 { return Some(NegativeQuantity); }
      if quantity > MAX_QUANTITY { return Some(QuantityOverflow); }
      if sku !in store.items { return Some(StockNotFound); }
      var owner := store.items[sku].seller;
      var items, ledger := store.items, store.ledger;
      var locked := Lock([sku]);
      error := ChangeEach(locked.value, [sku], [DoSetAvailable(owner, quantity, reference)]);
      if error != None { store.items, store.ledger := items, ledger; }
    }

    method EnsureStock(sku: R.SKU, seller: Reference) returns (error: Option<StockError>)
      modifies store
      ensures Did(old(store.State()), C.EnsureStock(old(store.State()), sku, seller), error)
    {
      if sku in store.items { return None; }
      if sku == "" || seller == BLANK { return Some(InvalidId); }
      var item := new StockItem.Rehydrate(Item(sku, seller, 0, 0, [], [], 0));
      error := store.Save(item);
    }

    /** Reserves line by line; the hold of one line sets the expiry of the next. */
    method Reserve(request: seq<C.Line>, id: Reference, order: Reference, expiresAt: Time, now: Time)
      returns (result: Result<Time, StockError>)
      requires Sound(store.State())
      modifies store
      ensures match C.Reserve(old(store.State()), request, id, order, expiresAt, now)
        case Ok((next, until)) => result == Ok(until) && store.State() == next
        case Err(e) => result == Err(e) && store.State() == old(store.State())
    {
      hide Perform, SortedKeys, Sound, C.ReserveLines, C.ParseLines, C.Parsed, C.Skus;
      if id == BLANK { return Err(ReservationNotFound); }
      var parsed := C.ParseLines(request);
      if parsed.Err? { return Err(parsed.error); }
      var lines := parsed.value;
      C.ParseSorts(request);
      C.ParsedMeans(lines);
      var items, ledger := store.items, store.ledger;
      var locked := Lock(C.Skus(lines));
      C.LinesAreStored(store.State(), lines);
      if locked.Err? { return Err(locked.error); }
      result := ReserveEach(locked.value, lines, id, order, expiresAt, now);
      if result.Err? { store.items, store.ledger := items, ledger; }
    }

    method ReserveOne(item: StockItem, ghost sku: R.SKU, quantity: Quantity, id: Reference, order: Reference,
        expiresAt: Time, now: Time)
      returns (result: Result<Time, StockError>)
      requires Sound(store.State()) && sku in store.items && item.State() == store.items[sku]
      modifies store, item
      ensures match old(store.items)[sku].Reserve(id, order, quantity, expiresAt, now)
        case Err(e) => result == Err(e)
        case Ok(next) =>
          && FindHold(next.holds, id) >= 0 && result == Ok(next.holds[FindHold(next.holds, id)].expiresAt)
          && Sound(store.State())
          && AfterSave(old(store.State()), next) == Ok(store.State())
            && store.items == old(store.items)[sku := Saved(next)]
    {
      hide Perform, Sane;
      assert Stored(sku, store.items[sku]);
      ghost var was := store.State();
      ghost var c := DoReserve(id, order, quantity, expiresAt, now);
      C.PerformReserve(was.items[sku], c);
      C.ReservedIsFound(was.items[sku], id, order, quantity, expiresAt, now);
      var error := item.Reserve(id, order, quantity, expiresAt, now);
      if error != None { return Err(error.value); }
      C.SaveLoaded(was, sku, c);
      var found := item.IndexOf(id);
      var until := item.holds[found].expiresAt;
      error := store.Save(item);
      result := Ok(until);
    }

    method ReserveEach(loaded: seq<StockItem>, lines: seq<C.Line>, id: Reference, order: Reference, expiresAt: Time,
        now: Time)
      returns (result: Result<Time, StockError>)
      requires C.Positive(lines) && |loaded| == |lines| && Separate(loaded, C.Skus(lines))
      requires Sound(store.State()) && Fresh(loaded, C.Skus(lines), 0)
      modifies store, loaded
      ensures C.Servable(old(store.State()), lines)
      ensures match C.ReserveLines(old(store.State()), lines, id, order, expiresAt, now)
        case Ok((next, until)) => result == Ok(until) && store.State() == next
        case Err(e) => result == Err(e)
    {
      hide Perform, Sound, AfterSave, FindHold, C.ReserveLines, C.Servable, C.Positive, C.Skus;
      var i, until := 0, expiresAt;
      ghost var keys := C.Skus(lines);
      C.ServableWhenStored(store.State(), lines);
      assert lines[0..] == lines;
      while i < |loaded|
        invariant 0 <= i <= |loaded|
        invariant Sound(store.State()) && Fresh(loaded, keys, i) && C.Servable(store.State(), lines[i..])
        invariant C.ReserveLines(store.State(), lines[i..], id, order, until, now)
               == C.ReserveLines(old(store.State()), lines, id, order, expiresAt, now)
      {
        assert lines[i..][1..] == lines[i + 1..] && lines[i..][0] == lines[i] && lines[i].sku == keys[i];
        C.ReserveFirst(store.State(), lines[i..], id, order, until, now);
        var next := ReserveOne(loaded[i], keys[i], lines[i].quantity, id, order, until, now);
        if next.Err? { return next; }
        until := next.value;
        i := i + 1;
      }
      C.ReserveNone(store.State(), lines[i..], id, order, until, now);
      result := Ok(until);
    }
  }
}
