/** The inventory commands as database transactions on the store: each one locks its items in the byte order of their
SKU, changes and saves them one after the other, and leaves the store as it was when any of them refuses. */
module StockCommands {
  import opened Kernel
  import opened Sorting
  import opened StockItems
  import opened StockStore
  import R = Reservations

  const MAX_LINES: int := 100
  const EXPIRY_BATCH: int := 200

  datatype Line = Line(sku: R.SKU, quantity: int)

  function Skus(lines: seq<Line>): (r: seq<R.SKU>)
    ensures |r| == |lines| && forall i :: 0 <= i < |lines| ==> r[i] == lines[i].sku
  {
    if lines == [] then [] else Skus(lines[..|lines| - 1]) + [lines[|lines| - 1].sku]
  }

  predicate LineUpTo(a: Line, b: Line) { UpTo(a.sku, b.sku) }

  // ---------- parsing the lines of a request ----------

  function LineError(before: seq<Line>, line: Line): Option<StockError> {
    if exists l :: l in before && l.sku == line.sku then Some(InvalidLines)
    else if line.quantity < 0 then Some(NegativeQuantity)
    else if line.quantity > MAX_QUANTITY then Some(QuantityOverflow)
    else if line.quantity == 0 then Some(InvalidQuantity)
    else None
  }

  function FirstError(lines: seq<Line>): Option<StockError> {
    if lines == [] then None
    else
      var earlier := FirstError(lines[..|lines| - 1]);
      if earlier != None then earlier else LineError(lines[..|lines| - 1], lines[|lines| - 1])
  }

  function ParseLines(lines: seq<Line>): Result<seq<Line>, StockError> {
    if lines == [] || |lines| > MAX_LINES then Err(InvalidLines)
    else match FirstError(lines)
      case Some(e) => Err(e)
      case None => Ok(Sort(lines, LineUpTo))
  }

  ghost predicate Distinct(lines: seq<Line>) {
    forall i, j :: 0 <= i < j < |lines| ==> lines[i].sku != lines[j].sku
  }

  ghost predicate Positive(lines: seq<Line>) {
    forall l :: l in lines ==> 0 < l.quantity <= MAX_QUANTITY
  }

  /** What a parsed request looks like: strictly ascending by SKU, with positive quantities. */
  ghost predicate Parsed(lines: seq<Line>) {
    Ascending(Skus(lines)) && Positive(lines)
  }

  lemma DistinctAppend(lines: seq<Line>, x: Line)
    ensures Distinct(lines + [x]) <==> Distinct(lines) && forall l :: l in lines ==> l.sku != x.sku
  {
    var all := lines + [x];
    if Distinct(all) {
      forall i, j | 0 <= i < j < |lines| ensures lines[i].sku != lines[j].sku { assert all[i].sku != all[j].sku; }
      forall l | l in lines ensures l.sku != x.sku {
        var i :| 0 <= i < |lines| && lines[i] == l;
        assert all[i].sku != all[|lines|].sku;
      }
    }
  }

  lemma {:induction false} NoErrorMeansFine(lines: seq<Line>)
    ensures FirstError(lines) == None <==> Distinct(lines) && Positive(lines)
  {
    if lines != [] {
      hide Distinct;
      var init, last := lines[..|lines| - 1], lines[|lines| - 1];
      NoErrorMeansFine(init);
      assert lines == init + [last];
      DistinctAppend(init, last);
      assert Positive(lines) <==> Positive(init) && 0 < last.quantity <= MAX_QUANTITY;
    } else {
      assert Distinct(lines) && Positive(lines);
    }
  }

  lemma {:induction false} InsertKeepsSkus(lines: seq<Line>, x: Line)
    ensures Skus(Insert(lines, x, LineUpTo)) == Insert(Skus(lines), x.sku, UpTo)
  {
    if lines == [] || LineUpTo(lines[|lines| - 1], x) {
      assert (lines + [x])[..|lines|] == lines;
    } else {
      var init, last := lines[..|lines| - 1], lines[|lines| - 1];
      InsertKeepsSkus(init, x);
      assert Skus(lines)[..|lines| - 1] == Skus(init);
      assert (Insert(init, x, LineUpTo) + [last])[..|Insert(init, x, LineUpTo)|] == Insert(init, x, LineUpTo);
    }
  }

  lemma {:induction false} SortKeepsSkus(lines: seq<Line>)
    ensures Skus(Sort(lines, LineUpTo)) == Sort(Skus(lines), UpTo)
  {
    if lines != [] {
      SortKeepsSkus(lines[..|lines| - 1]);
      InsertKeepsSkus(Sort(lines[..|lines| - 1], LineUpTo), lines[|lines| - 1]);
      assert Skus(lines)[..|lines| - 1] == Skus(lines[..|lines| - 1]);
    }
  }

  lemma LineOrderIsTotal()
    ensures TotalPreorder(LineUpTo)
  {
    UpToIsTotal();
    assert forall a, b :: LineUpTo(a, b) == UpTo(a.sku, b.sku);
  }

  lemma DistinctSkus(lines: seq<Line>)
    ensures Distinct(lines) <==> NoRepeat(Skus(lines))
  {
    forall i, j | 0 <= i < j < |lines| ensures lines[i].sku == lines[j].sku <==> Skus(lines)[i] == Skus(lines)[j] { }
  }

  /** Parsing accepts exactly 1 to 100 lines with distinct SKUs and positive quantities, and rearranges them into
      ascending order without changing any. */
  lemma ParseSorts(lines: seq<Line>)
    ensures ParseLines(lines).Ok? <==> 1 <= |lines| <= MAX_LINES && Distinct(lines) && Positive(lines)
    ensures ParseLines(lines).Ok? ==>
      Parsed(ParseLines(lines).value) && multiset(ParseLines(lines).value) == multiset(lines)
  {
    hide Sort, FirstError, Distinct, Ascending;
    NoErrorMeansFine(lines);
    if ParseLines(lines).Ok? {
      var out := Sort(lines, LineUpTo);
      LineOrderIsTotal();
      SortSorts(lines, LineUpTo);
      SortKeepsSkus(lines);
      DistinctSkus(lines);
      DistinctSortAscends(Skus(lines));
      forall l | l in out ensures 0 < l.quantity <= MAX_QUANTITY {
        assert l in multiset(out);
      }
    }
  }

  // ---------- changing several items in one transaction ----------

  /** Changes and saves the items `keys` in order. */
  function ApplyEach(store: Store, keys: seq<R.SKU>, commands: seq<Command>): Result<Store, StockError>
    requires |keys| == |commands|
    requires forall k :: k in keys ==> k in store.items
    decreases |keys|
  {
    if keys == [] then Ok(store)
    else match Perform(store.items[keys[0]], commands[0])
      case Err(e) => Err(e)
      case Ok(item) =>
        match AfterSave(store, item)
        case Err(e) => Err(e)
        case Ok(next) => ApplyEach(next, keys[1..], commands[1..])
  }

  ghost predicate Changed(store: Store, next: Store, sku: R.SKU, c: Command) {
    && sku in store.items && sku in next.items
    && Perform(store.items[sku], c).Ok? && next.items[sku] == Saved(Perform(store.items[sku], c).value)
  }

  ghost predicate SameElsewhere(store: Store, next: Store, keys: seq<R.SKU>) {
    && next.items.Keys == store.items.Keys
    && forall sku :: sku in store.items && sku !in keys ==> next.items[sku] == store.items[sku]
  }

  /** A loaded and changed item can always be saved, and only that item changes. */
  lemma SaveLoaded(store: Store, sku: R.SKU, c: Command)
    requires Sound(store) && sku in store.items && Perform(store.items[sku], c).Ok?
    ensures var r := AfterSave(store, Perform(store.items[sku], c).value);
      && r.Ok? && Sound(r.value)
      && r.value.items == store.items[sku := Saved(Perform(store.items[sku], c).value)]
  {
    assert Stored(sku, store.items[sku]);
    CommandKeepsItem(store.items[sku], c);
    hide Perform, Sane;
  }

  /** A transaction on several items is all or nothing: it succeeds exactly when each command succeeds on the item it
      is meant for, and then every one of them has taken effect and nothing else has. */
  lemma {:induction false} ApplyEachEffect(store: Store, keys: seq<R.SKU>, commands: seq<Command>)
    requires Sound(store) && |keys| == |commands|
    requires forall k :: k in keys ==> k in store.items
    requires NoRepeat(keys)
    ensures match ApplyEach(store, keys, commands)
      case Ok(next) =>
        && Sound(next) && SameElsewhere(store, next, keys)
        && forall k :: 0 <= k < |keys| ==> Changed(store, next, keys[k], commands[k])
      case Err(e) => exists k :: 0 <= k < |keys| && Perform(store.items[keys[k]], commands[k]) == Err(e)
    decreases |keys|
  {
    hide Sound, Perform;
    if keys != [] && Perform(store.items[keys[0]], commands[0]).Ok? {
      SaveLoaded(store, keys[0], commands[0]);
      var next := AfterSave(store, Perform(store.items[keys[0]], commands[0]).value).value;
      var rest, later := keys[1..], commands[1..];
      forall i, j | 0 <= i < j < |rest| ensures rest[i] != rest[j] { assert keys[i + 1] != keys[j + 1]; }
      forall k | 0 <= k < |rest| ensures next.items[rest[k]] == store.items[rest[k]] { assert keys[k + 1] != keys[0]; }
      ApplyEachEffect(next, rest, later);
      if ApplyEach(next, rest, later).Ok? {
        var end := ApplyEach(next, rest, later).value;
        assert keys[0] !in rest by {
          forall k | 0 <= k < |rest| ensures rest[k] != keys[0] { assert keys[k + 1] != keys[0]; }
        }
        forall k | 0 <= k < |keys| ensures Changed(store, end, keys[k], commands[k]) {
          if k > 0 { assert Changed(next, end, rest[k - 1], later[k - 1]); }
        }
      } else {
        var k :| 0 <= k < |rest| && Perform(next.items[rest[k]], later[k]) == Err(ApplyEach(next, rest, later).error);
        assert keys[k + 1] == rest[k] && commands[k + 1] == later[k];
      }
    }
  }

  // ---------- reserving ----------

  /** Every line asks for a positive quantity of a stored item. */
  ghost predicate Servable(store: Store, lines: seq<Line>) {
    Positive(lines) && forall l :: l in lines ==> l.sku in store.items
  }

  lemma ServableWhenStored(store: Store, lines: seq<Line>)
    requires Positive(lines) && forall i :: 0 <= i < |lines| ==> Skus(lines)[i] in store.items
    ensures Servable(store, lines)
  {
    forall l | l in lines ensures l.sku in store.items {
      var i :| 0 <= i < |lines| && lines[i] == l;
      assert Skus(lines)[i] == l.sku;
    }
  }

  /** The reservation of the first line sets the expiry of the others. */
  function ReserveLines(store: Store, lines: seq<Line>, id: Reference, order: Reference, expiresAt: Time, now: Time)
    : Result<(Store, Time), StockError>
    requires Servable(store, lines)
    decreases |lines|
  {
    if lines == [] then Ok((store, expiresAt))
    else
      assert lines[0] in lines;
      match store.items[lines[0].sku].Reserve(id, order, lines[0].quantity, expiresAt, now)
      case Err(e) => Err(e)
      case Ok(item) =>
        ReservedIsFound(store.items[lines[0].sku], id, order, lines[0].quantity, expiresAt, now);
        match AfterSave(store, item)
        case Err(e) => Err(e)
        case Ok(next) => ReserveLines(next, lines[1..], id, order, item.holds[FindHold(item.holds, id)].expiresAt, now)
  }

  lemma ReserveNone(store: Store, lines: seq<Line>, id: Reference, order: Reference, expiresAt: Time, now: Time)
    requires lines == []
    ensures Servable(store, lines) && ReserveLines(store, lines, id, order, expiresAt, now) == Ok((store, expiresAt))
  {
  }

  lemma ReserveFirst(store: Store, lines: seq<Line>, id: Reference, order: Reference, expiresAt: Time, now: Time)
    requires Servable(store, lines) && lines != []
    ensures lines[0].sku in store.items && 0 < lines[0].quantity <= MAX_QUANTITY
    ensures match store.items[lines[0].sku].Reserve(id, order, lines[0].quantity, expiresAt, now)
      case Err(e) => ReserveLines(store, lines, id, order, expiresAt, now) == Err(e)
      case Ok(item) =>
        && FindHold(item.holds, id) >= 0
        && (AfterSave(store, item).Ok? ==>
            var next := AfterSave(store, item).value;
            && Servable(next, lines[1..])
            && ReserveLines(store, lines, id, order, expiresAt, now)
               == ReserveLines(next, lines[1..], id, order, item.holds[FindHold(item.holds, id)].expiresAt, now))
  {
    hide FindHold;
    assert lines[0] in lines;
    ReservedIsFound(store.items[lines[0].sku], id, order, lines[0].quantity, expiresAt, now);
  }

  function Reserve(store: Store, request: seq<Line>, id: Reference, order: Reference, expiresAt: Time, now: Time)
    : Result<(Store, Time), StockError>
  {
    if id == BLANK then Err(ReservationNotFound)
    else match ParseLines(request)
    case Err(e) => Err(e)
    case Ok(lines) =>
      ParseSorts(request);
      if exists l :: l in lines && l.sku !in store.items then Err(StockNotFound)
      else ReserveLines(store, lines, id, order, expiresAt, now)
  }

  function ReserveCommands(lines: seq<Line>, id: Reference, order: Reference, expiresAt: Time,
      now: Time): (r: seq<Command>)
    requires Positive(lines)
    ensures |r| == |lines|
  {
    seq(|lines|, i requires 0 <= i < |lines| => assert lines[i] in lines;
      DoReserve(id, order, lines[i].quantity, expiresAt, now))
  }

  predicate Unknown(store: Store, id: Reference, sku: R.SKU) {
    sku in store.items && FindHold(store.items[sku].holds, id) < 0
  }

  /** A reservation nobody has seen is one command on each item, all with the same expiry. */
  lemma {:induction false} FreshReserve(store: Store, lines: seq<Line>, id: Reference, order: Reference,
      expiresAt: Time, now: Time)
    requires Sound(store) && Parsed(lines)
    requires forall l :: l in lines ==> l.sku in store.items && Unknown(store, id, l.sku)
    requires forall k :: k in Skus(lines) ==> k in store.items
    ensures ReserveLines(store, lines, id, order, expiresAt, now)
         == match ApplyEach(store, Skus(lines), ReserveCommands(lines, id, order, expiresAt, now))
            case Ok(next) => Ok((next, expiresAt))
            case Err(e) => Err(e)
    decreases |lines|
  {
    hide Sound, Perform, AfterSave, ReserveLines, Item.Reserve, Ascending, FindHold, Reserving;
    if lines == [] {
      ReserveNone(store, lines, id, order, expiresAt, now);
    } else {
      var l, rest := lines[0], lines[1..];
      assert l in lines;
      ReserveFirst(store, lines, id, order, expiresAt, now);
      assert Skus(lines)[1..] == Skus(rest);
      assert Skus(lines)[0] == l.sku;
      assert ReserveCommands(lines, id, order, expiresAt, now)[1..] == ReserveCommands(rest, id, order, expiresAt, now);
      var c := DoReserve(id, order, l.quantity, expiresAt, now);
      PerformReserve(store.items[l.sku], c);
      if Perform(store.items[l.sku], c).Ok? {
        SaveLoaded(store, l.sku, c);
        ReserveAdds(store.items[l.sku], id, order, l.quantity, expiresAt, now);
        var next := AfterSave(store, Perform(store.items[l.sku], c).value).value;
        RestOfParsed(lines);
        AscendingIsDistinct(Skus(lines));
        forall m | m in rest ensures m.sku in next.items && Unknown(next, id, m.sku) {
          var i :| 0 <= i < |rest| && rest[i] == m;
          assert lines[i + 1] == m && Skus(lines)[i + 1] != Skus(lines)[0];
          assert Unknown(store, id, m.sku);
        }
        FreshReserve(next, rest, id, order, expiresAt, now);
      }
    }
  }

  lemma RestOfParsed(lines: seq<Line>)
    requires Parsed(lines) && lines != []
    ensures Parsed(lines[1..])
  {
    forall i, j | 0 <= i < j < |lines| - 1 ensures Below(Skus(lines[1..])[i], Skus(lines[1..])[j]) {
      assert Below(Skus(lines)[i + 1], Skus(lines)[j + 1]);
    }
  }

  lemma ReserveAdds(s: Item, id: Reference, order: Reference, quantity: Quantity, expiresAt: Time, now: Time)
    requires FindHold(s.holds, id) < 0
    ensures s.Reserve(id, order, quantity, expiresAt, now).Ok? <==>
      && id != BLANK && quantity > 0 && now < expiresAt
      && quantity <= s.available && s.reserved + quantity <= MAX_QUANTITY
    ensures s.Reserve(id, order, quantity, expiresAt, now).Ok? ==>
      var t := s.Reserve(id, order, quantity, expiresAt, now).value;
      && Saved(t) == Reserving(s, id, order, quantity, expiresAt)
      && FindHold(t.holds, id) == |s.holds| && t.holds[|s.holds|].expiresAt == expiresAt
  {
    hide FindHold;
    FoundAtEnd(s.holds, Hold(id, order, quantity, R.Held, expiresAt));
  }

  lemma FoundAtEnd(holds: seq<Hold>, h: Hold)
    requires FindHold(holds, h.reservation) < 0
    ensures FindHold(holds + [h], h.reservation) == |holds|
  {
    assert (holds + [h])[|holds|] == h;
    assert forall j :: 0 <= j < |holds| ==> (holds + [h])[j] == holds[j];
  }

  /** The item as it is stored once `quantity` of it is held for a new reservation. */
  function Reserving(s: Item, id: Reference, order: Reference, quantity: Quantity, expiresAt: Time): Item
    requires quantity <= s.available && s.reserved + quantity <= MAX_QUANTITY
  {
    Item(s.sku, s.seller, s.available - quantity, s.reserved + quantity,
         s.holds + [Hold(id, order, quantity, R.Held, expiresAt)], [], s.version + 1)
  }

  predicate Reservable(store: Store, l: Line) {
    && l.sku in store.items && 0 < l.quantity <= store.items[l.sku].available
    && store.items[l.sku].reserved + l.quantity <= MAX_QUANTITY
  }

  lemma FreshReserveOnItem(store: Store, lines: seq<Line>, id: Reference, order: Reference, expiresAt: Time,
      now: Time, k: nat)
    requires Positive(lines) && k < |lines| && Unknown(store, id, lines[k].sku)
    ensures var r := Perform(store.items[lines[k].sku], ReserveCommands(lines, id, order, expiresAt, now)[k]);
      && (r.Ok? <==> id != BLANK && now < expiresAt && Reservable(store, lines[k]))
      && (r.Ok? ==> Saved(r.value) == Reserving(store.items[lines[k].sku], id, order, lines[k].quantity, expiresAt))
  {
    assert lines[k] in lines;
    ReserveAdds(store.items[lines[k].sku], id, order, lines[k].quantity, expiresAt, now);
  }

  /** Reserving under a new id either moves exactly the requested quantity of every requested SKU from available to
      reserved, or changes nothing; it succeeds exactly when every line can be served. The items are locked in byte
      order and the request is sorted into byte order, and that pairs each item with its own line. */
  lemma ReserveMovesExactly(store: Store, request: seq<Line>, id: Reference, order: Reference, expiresAt: Time,
      now: Time)
    requires Sound(store) && forall sku :: sku in store.items ==> Unknown(store, id, sku)
    ensures var r := Reserve(store, request, id, order, expiresAt, now);
      && (r.Ok? <==>
          && ParseLines(request).Ok? && id != BLANK && now < expiresAt
          && forall l :: l in request ==> Reservable(store, l))
      && (r.Ok? ==>
          var (next, until) := r.value;
          && until == expiresAt && Sound(next) && next.items.Keys == store.items.Keys
          && (forall l :: l in request ==>
                next.items[l.sku] == Reserving(store.items[l.sku], id, order, l.quantity, expiresAt))
          && (forall sku :: sku in store.items && (forall l :: l in request ==> l.sku != sku) ==>
            next.items[sku] == store.items[sku]))
  {
    hide ParseLines, Parsed, Sound, Reserving, ReserveLines, Unknown;
    ParseSorts(request);
    if ParseLines(request).Ok? {
      var lines := ParseLines(request).value;
      SameLines(lines, request);
      OnceParsed(lines);
      if forall l :: l in lines ==> l.sku in store.items {
        ReserveParsed(store, lines, id, order, expiresAt, now);
      }
    }
  }

  lemma SameLines(a: seq<Line>, b: seq<Line>)
    requires multiset(a) == multiset(b)
    ensures forall l :: l in a <==> l in b
  {
    assert forall l :: l in a <==> l in multiset(a);
    assert forall l :: l in b <==> l in multiset(b);
  }

  lemma OnceParsed(lines: seq<Line>)
    requires Parsed(lines)
    ensures Positive(lines)
  {
  }

  lemma ReserveParsed(store: Store, lines: seq<Line>, id: Reference, order: Reference, expiresAt: Time, now: Time)
    requires Sound(store) && Parsed(lines) && lines != []
    requires forall l :: l in lines ==> l.sku in store.items && Unknown(store, id, l.sku)
    ensures var r := ReserveLines(store, lines, id, order, expiresAt, now);
      && (r.Ok? <==> id != BLANK && now < expiresAt && forall l :: l in lines ==> Reservable(store, l))
      && (r.Ok? ==>
          var (next, until) := r.value;
          && until == expiresAt && Sound(next) && next.items.Keys == store.items.Keys
          && (forall l :: l in lines ==>
            next.items[l.sku] == Reserving(store.items[l.sku], id, order, l.quantity, expiresAt))
          && (forall sku :: sku in store.items && (forall l :: l in lines ==> l.sku != sku) ==>
            next.items[sku] == store.items[sku]))
  {
    hide Sound, Parsed, Perform, ReserveLines, ApplyEach;
    assert lines[0] in lines;
    assert Positive(lines) && Ascending(Skus(lines)) by { ParsedMeans(lines); }
    AscendingIsDistinct(Skus(lines));
    var keys, cmds := Skus(lines), ReserveCommands(lines, id, order, expiresAt, now);
    forall k | k in keys ensures k in store.items {
      var i :| 0 <= i < |keys| && keys[i] == k;
      assert lines[i] in lines;
    }
    FreshReserve(store, lines, id, order, expiresAt, now);
    ApplyEachEffect(store, keys, cmds);
    forall k | 0 <= k < |lines|
      ensures var r := Perform(store.items[keys[k]], cmds[k]);
        && (r.Ok? <==> id != BLANK && now < expiresAt && Reservable(store, lines[k]))
        && (r.Ok? ==> Saved(r.value) == Reserving(store.items[keys[k]], id, order, lines[k].quantity, expiresAt))
    {
      assert lines[k] in lines;
      FreshReserveOnItem(store, lines, id, order, expiresAt, now, k);
    }
    match ApplyEach(store, keys, cmds)
    case Err(e) =>
      var k :| 0 <= k < |keys| && Perform(store.items[keys[k]], cmds[k]) == Err(e);
      assert lines[k] in lines;
    case Ok(next) =>
      forall l | l in lines
        ensures id != BLANK && now < expiresAt && Reservable(store, l)
        ensures next.items[l.sku] == Reserving(store.items[l.sku], id, order, l.quantity, expiresAt)
      {
        var k :| 0 <= k < |lines| && lines[k] == l;
        assert Changed(store, next, keys[k], cmds[k]);
      }
      forall sku | sku in store.items && (forall l :: l in lines ==> l.sku != sku) ensures sku !in keys {
        forall k | 0 <= k < |keys| ensures keys[k] != sku { assert lines[k] in lines; }
      }
  }

  lemma ParsedMeans(lines: seq<Line>)
    requires Parsed(lines)
    ensures Positive(lines) && Ascending(Skus(lines))
  {
  }

  // ---------- the other commands ----------

  function HasHold(id: Reference): Item -> bool { (item: Item) => FindHold(item.holds, id) >= 0 }

  function HasDue(now: Time): Item -> bool {
    (item: Item) => exists i :: 0 <= i < |item.holds| && IsDue(item.holds[i], now)
  }

  function Repeat(c: Command, n: nat): (r: seq<Command>)
    ensures |r| == n
  {
    seq(n, _ => c)
  }

  ghost function LockedFor(store: Store, id: Reference): seq<R.SKU> {
    SortedKeys(Matching(store.items, HasHold(id)))
  }

  /** Commit, release or restore on every item the reservation has a hold on. */
  ghost function ResolveAll(store: Store, id: Reference, c: Command): Result<Store, StockError> {
    var keys := LockedFor(store, id);
    KeysAreStored(store, HasHold(id));
    if keys == [] then Err(ReservationNotFound) else ApplyEach(store, keys, Repeat(c, |keys|))
  }

  ghost function Batch(store: Store, now: Time, limit: int): seq<R.SKU> {
    Limited(SortedKeys(Matching(store.items, HasDue(now))), if limit <= 0 then EXPIRY_BATCH else limit)
  }

  ghost function ExpireBatch(store: Store, now: Time, limit: int): Result<Store, StockError> {
    var keys := Batch(store, now, limit);
    KeysAreStored(store, HasDue(now));
    ApplyEach(store, keys, Repeat(DoExpireDue(now), |keys|))
  }

  function ReturnCommands(lines: seq<Line>, reference: Reference): (r: seq<Command>)
    requires Positive(lines)
    ensures |r| == |lines|
  {
    seq(|lines|, i requires 0 <= i < |lines| => assert lines[i] in lines; DoReturn(reference, lines[i].quantity))
  }

  lemma SkusAreStored(store: Store, lines: seq<Line>)
    requires forall l :: l in lines ==> l.sku in store.items
    ensures forall k :: k in Skus(lines) ==> k in store.items
  {
    forall k | k in Skus(lines) ensures k in store.items {
      var i :| 0 <= i < |lines| && Skus(lines)[i] == k;
      assert lines[i] in lines;
    }
  }

  function ReturnLines(store: Store, request: seq<Line>, reference: Reference): Result<Store, StockError> {
    match ParseLines(request)
    case Err(e) => Err(e)
    case Ok(lines) =>
      ParseSorts(request);
      if reference == BLANK then Err(InvalidReference)
      else if exists l :: l in lines && l.sku !in store.items then Err(StockNotFound)
      else
        SkusAreStored(store, lines);
        ApplyEach(store, Skus(lines), ReturnCommands(lines, reference))
  }

  function SetStock(store: Store, sku: R.SKU, quantity: int, reference: Reference): Result<Store, StockError> {
    if quantity < 0 then Err(NegativeQuantity)
    else if quantity > MAX_QUANTITY then Err(QuantityOverflow)
    else if sku !in store.items then Err(StockNotFound)
    else ApplyEach(store, [sku], [DoSetAvailable(store.items[sku].seller, quantity, reference)])
  }

  function EnsureStock(store: Store, sku: R.SKU, seller: Reference): Result<Store, StockError> {
    if sku in store.items then Ok(store)
    else match Open(sku, seller)
      case Err(e) => Err(e)
      case Ok(item) => AfterSave(store, item)
  }

  lemma KeysAreStored(store: Store, matches: Item -> bool)
    ensures forall k :: k in SortedKeys(Matching(store.items, matches)) ==> k in store.items && matches(store.items[k])
    ensures forall k :: k in store.items && matches(store.items[k]) ==> k in SortedKeys(Matching(store.items, matches))
    ensures var keys := SortedKeys(Matching(store.items, matches)); NoRepeat(keys)
  {
    var keys := SortedKeys(Matching(store.items, matches));
    AscendingIsDistinct(keys);
    forall k | k in keys ensures k in store.items && matches(store.items[k]) { assert k in Elements(keys); }
    forall k | k in store.items && matches(store.items[k]) ensures k in keys { assert k in Elements(keys); }
  }

  /** Looking up the requested items finds as many as were requested only if all of them exist, and then it finds
      exactly those, in the order of the request. */
  lemma LockFindsAll(store: Store, skus: seq<R.SKU>)
    requires Ascending(skus) && Sound(store)
    ensures var keys := SortedKeys(Matching(store.items, Requested(skus)));
      (|keys| == |skus| <==> forall k :: k in skus ==> k in store.items) && (|keys| == |skus| ==> keys == skus)
  {
    hide SortedKeys, Sane;
    var keys := SortedKeys(Matching(store.items, Requested(skus)));
    AscendingIsDistinct(skus);
    DistinctSize(skus);
    assert forall k :: k in Elements(keys) <==> k in skus && k in store.items by {
      assert forall k :: k in store.items ==> Stored(k, store.items[k]);
    }
    assert Elements(keys) <= Elements(skus);
    if |keys| == |skus| {
      SubsetOfSameSize(Elements(keys), Elements(skus));
      assert forall k :: k in skus ==> k in Elements(skus);
    }
    if forall k :: k in skus ==> k in store.items {
      assert Elements(keys) == Elements(skus);
      AscendingIsUnique(keys, skus);
    }
  }

  function Requested(skus: seq<R.SKU>): Item -> bool { (item: Item) => item.sku in skus }

  /** The lock is limited to the number of items asked for, which never cuts anything off. */
  lemma LockFinds(store: Store, skus: seq<R.SKU>)
    requires Ascending(skus) && Sound(store)
    ensures var all := SortedKeys(Matching(store.items, Requested(skus)));
      |all| <= |skus| && Limited(all, |skus|) == all
  {
    hide SortedKeys, Sane;
    var keys := SortedKeys(Matching(store.items, Requested(skus)));
    AscendingIsDistinct(skus);
    DistinctSize(skus);
    assert forall k :: k in Elements(keys) ==> k in skus by {
      assert forall k :: k in store.items ==> Stored(k, store.items[k]);
    }
    assert Elements(keys) <= Elements(skus);
    SubsetIsSmaller(Elements(keys), Elements(skus));
  }

  lemma LinesAreStored(store: Store, lines: seq<Line>)
    ensures (forall l :: l in lines ==> l.sku in store.items) <==> forall k :: k in Skus(lines) ==> k in store.items
  {
    if forall l :: l in lines ==> l.sku in store.items { SkusAreStored(store, lines); }
    if forall k :: k in Skus(lines) ==> k in store.items {
      forall l | l in lines ensures l.sku in store.items {
        var i :| 0 <= i < |lines| && lines[i] == l;
        assert Skus(lines)[i] in Skus(lines);
      }
    }
  }

  lemma PerformReserve(s: Item, c: Command)
    requires c.DoReserve?
    ensures Perform(s, c) == s.Reserve(c.id, c.order, c.quantity, c.expiresAt, c.now)
  {
  }

  lemma ReservedIsFound(s: Item, id: Reference, order: Reference, quantity: Quantity, expiresAt: Time, now: Time)
    ensures var r := s.Reserve(id, order, quantity, expiresAt, now); r.Ok? ==> FindHold(r.value.holds, id) >= 0
  {
    if s.Reserve(id, order, quantity, expiresAt, now).Ok? && FindHold(s.holds, id) < 0 {
      ReserveAdds(s, id, order, quantity, expiresAt, now);
    }
  }
}
