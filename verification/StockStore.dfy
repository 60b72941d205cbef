/** Where stock items are kept: one snapshot per SKU with optimistic versions, and the ledger of movements, in which an
entry with the same SKU, reason and reference is written once. */
module StockStore {
  import opened Kernel
  import opened Sorting
  import opened StockItems
  import R = Reservations

  datatype Store = Store(items: map<R.SKU, Item>, ledger: seq<Movement>)

  const EMPTY: Store := Store(map[], [])

  predicate SameEntry(a: Movement, b: Movement) {
    a.sku == b.sku && a.reason == b.reason && a.reference == b.reference
  }

  predicate Known(ledger: seq<Movement>, m: Movement) {
    exists i :: 0 <= i < |ledger| && SameEntry(ledger[i], m)
  }

  /** Each movement is compared with what the ledger holds by then, earlier movements of the same save included. */
  function Entered(ledger: seq<Movement>, movements: seq<Movement>): seq<Movement>
    decreases |movements|
  {
    if movements == [] then ledger
    else Entered(if Known(ledger, movements[0]) then ledger else ledger + [movements[0]], movements[1..])
  }

  function Saved(item: Item): Item { item.(version := item.version + 1, movements := []) }

  function AfterSave(store: Store, item: Item): (r: Result<Store, StockError>)
    ensures r.Ok? ==> r.value.items.Keys == store.items.Keys + {item.sku}
  {
    if item.version == 0 && item.sku in store.items then Err(StockExists)
    else if item.version > 0 && (item.sku !in store.items || store.items[item.sku].version != item.version) then
      Err(ConcurrentModification)
    else Ok(Store(store.items[item.sku := Saved(item)], Entered(store.ledger, item.movements)))
  }

  /** What every saved state satisfies. */
  ghost predicate Stored(sku: R.SKU, item: Item) {
    item.sku == sku && item.version > 0 && item.movements == [] && Sane(item)
  }

  ghost predicate Sound(store: Store) {
    forall sku :: sku in store.items ==> Stored(sku, store.items[sku])
  }

  lemma SaveKeepsSound(store: Store, item: Item)
    requires Sound(store) && Sane(item) && AfterSave(store, item).Ok?
    ensures Sound(AfterSave(store, item).value)
  {
  }

  ghost function Matching(items: map<R.SKU, Item>, matches: Item -> bool): set<R.SKU> {
    set sku | sku in items && matches(items[sku])
  }

  ghost function Limited(keys: seq<R.SKU>, limit: int): seq<R.SKU> {
    if 0 < limit < |keys| then keys[..limit] else keys
  }

  /** The store in memory. */
  class MemoryStore {
    var items: map<R.SKU, Item>
    var ledger: seq<Movement>

    function State(): Store
      reads this
    {
      Store(items, ledger)
    }

    constructor ()
      ensures State() == EMPTY
    {
      items, ledger := map[], [];
    }

    method Save(item: StockItem) returns (error: Option<StockError>)
      modifies this, item
      ensures match AfterSave(old(State()), old(item.State()))
        case Ok(next) => error == None && State() == next && item.State() == Saved(old(item.State()))
        case Err(e) => error == Some(e) && State() == old(State()) && item.State() == old(item.State())
    {
      var next := item.State().(movements := []);
      if next.version == 0 && next.sku in items { return Some(StockExists); }
      if next.version > 0 && (next.sku !in items || items[next.sku].version != next.version) {
        return Some(ConcurrentModification);
      }
      items := items[next.sku := next.(version := next.version + 1)];
      item.version := item.version + 1;
      var i := 0;
      while i < |item.movements|
        invariant 0 <= i <= |item.movements|
        invariant item.State() == old(item.State()).(version := old(item.version) + 1)
        invariant items == old(items)[next.sku := Saved(old(item.State()))]
        invariant Entered(ledger, item.movements[i..]) == Entered(old(ledger), old(item.movements))
      {
        assert item.movements[i..][1..] == item.movements[i + 1..];
        if !Known(ledger, item.movements[i]) { ledger := ledger + [item.movements[i]]; }
        i := i + 1;
      }
      assert item.movements[i..] == [];
      item.movements := [];
      error := None;
    }

    /** The matching items in byte order of their SKU, at most `limit` of them when that is positive. The map is walked
        in no particular order. */
    method Load(matches: Item -> bool, limit: int) returns (loaded: seq<StockItem>, ghost keys: seq<R.SKU>)
      requires forall sku :: sku in items ==> items[sku].sku == sku
      ensures keys == Limited(SortedKeys(Matching(items, matches)), limit)
      ensures |loaded| == |keys|
      ensures forall i :: 0 <= i < |keys| ==>
        keys[i] in items && loaded[i].State() == items[keys[i]] && fresh(loaded[i])
      ensures forall i, j :: 0 <= i < j < |keys| ==> loaded[i] != loaded[j]
    {
      hide Sort, SortedKeys, Elements;
      var found := CollectKeys(matches);
      var sorted := Sort(found, UpTo);
      SortedKeysOf(found, Matching(items, matches));
      if limit > 0 && |sorted| > limit { sorted := sorted[..limit]; }
      keys := sorted;
      loaded := Rehydrated(sorted);
    }

    method Rehydrated(keys: seq<R.SKU>) returns (loaded: seq<StockItem>)
      requires forall i :: 0 <= i < |keys| ==> keys[i] in items
      ensures |loaded| == |keys|
      ensures forall i :: 0 <= i < |keys| ==> loaded[i].State() == items[keys[i]] && fresh(loaded[i])
      ensures forall i, j :: 0 <= i < j < |keys| ==> loaded[i] != loaded[j]
    {
      loaded := [];
      var i := 0;
      while i < |keys|
        invariant 0 <= i == |loaded| <= |keys|
        invariant forall j :: 0 <= j < i ==> loaded[j].State() == items[keys[j]] && fresh(loaded[j])
        invariant forall j, k :: 0 <= j < k < i ==> loaded[j] != loaded[k]
      {
        var item := new StockItem.Rehydrate(items[keys[i]]);
        loaded := loaded + [item];
        i := i + 1;
      }
    }

    method CollectKeys(matches: Item -> bool) returns (found: seq<R.SKU>)
      ensures Elements(found) == Matching(items, matches)
      ensures NoRepeat(found)
    {
      hide NoRepeat;
      var rest := items.Keys;
      found := [];
      assert NoRepeat(found) by { NothingRepeats<R.SKU>(); }
      while rest != {}
        invariant rest <= items.Keys
        invariant Elements(found) == Matching(items, matches) - rest
        invariant NoRepeat(found)
        decreases |rest|
      {
        var sku :| sku in rest;
        if matches(items[sku]) {
          assert sku !in Elements(found);
          AppendNew(found, sku);
          found := found + [sku];
        }
        rest := rest - {sku};
      }
    }
  }
}
