/** The inventory transactions seen from one reservation: each of them is one of the line calls of `Reservations`, so
the holds of a reservation stay uniform over every run in which it is only ever used with one set of lines. */
module StockRuns {
  import opened Kernel
  import opened Sorting
  import opened StockItems
  import opened StockStore
  import C = StockCommands
  import R = Reservations

  /** The status of the hold of `id` on each item that has one. */
  function Lines(store: Store, id: Reference): R.Lines {
    map sku | sku in store.items && FindHold(store.items[sku].holds, id) >= 0 ::
      store.items[sku].holds[FindHold(store.items[sku].holds, id)].status
  }

  function StatusOf(item: Item, id: Reference): Option<R.HoldStatus> {
    var i := FindHold(item.holds, id);
    if i < 0 then None else Some(item.holds[i].status)
  }

  lemma LinesAre(store: Store, id: Reference)
    ensures forall sku :: sku in Lines(store, id) <==> sku in store.items && StatusOf(store.items[sku], id) != None
    ensures forall sku :: sku in Lines(store, id) ==> Some(Lines(store, id)[sku]) == StatusOf(store.items[sku], id)
  {
  }

  // ---------- one item ----------

  lemma StatusAfterUpdate(holds: seq<Hold>, i: nat, target: R.HoldStatus, other: Reference)
    requires i < |holds| && FindHold(holds, holds[i].reservation) == i
    ensures var after := holds[i := holds[i].(status := target)];
      && FindHold(after, other) == FindHold(holds, other)
      && (other == holds[i].reservation ==> after[FindHold(after, other)].status == target)
      && (other != holds[i].reservation && FindHold(holds, other) >= 0
        ==> after[FindHold(after, other)] == holds[FindHold(holds, other)])
  {
    var after := holds[i := holds[i].(status := target)];
    assert forall j :: 0 <= j < |holds| ==> after[j].reservation == holds[j].reservation;
  }

  /** What commit, release and restore do to the hold they are meant for; the holds of other reservations stay. */
  lemma ResolveOnItem(s: Item, id: Reference, c: Command, other: Reference)
    requires Sane(s) && (c == DoCommit(id) || c == DoRelease(id) || c == DoRestore(id))
    ensures match Perform(s, c)
      case Ok(t) =>
        && StatusOf(s, id) != None && (StatusOf(s, id) == Some(Source(c)) || StatusOf(s, id) == Some(Target(c)))
        && StatusOf(t, id) == Some(Target(c))
        && (other != id ==> StatusOf(t, other) == StatusOf(s, other))
      case Err(e) =>
        || e == StockOverflow
        || (e == ReservationNotFound && StatusOf(s, id) == None)
        || (e == Refusal(c) && StatusOf(s, id) != None && StatusOf(s, id) != Some(Source(c))
          && StatusOf(s, id) != Some(Target(c)))
  {
    hide Sum;
    if c == DoRestore(id) { RestoreTakesBack(s, id); } else { ResolveMovesHold(s, id, Target(c)); }
    var i := FindHold(s.holds, id);
    if i >= 0 { StatusAfterUpdate(s.holds, i, Target(c), other); StatusAfterUpdate(s.holds, i, Target(c), id); }
  }

  function Source(c: Command): R.HoldStatus { if c.DoRestore? then R.Committed else R.Held }
  function Target(c: Command): R.HoldStatus {
    if c.DoRestore? then R.Restored else if c.DoCommit? then R.Committed else R.Released
  }
  function Refusal(c: Command): StockError { if c.DoRestore? then ReservationNotCommitted else ReservationResolved }

  ghost function LineCall(lines: R.Lines, c: Command): Result<R.Lines, R.ReservationError> {
    if c.DoRestore? then R.Restore(lines) else if c.DoCommit? then R.Commit(lines) else R.Release(lines)
  }

  function Translated(e: StockError): Option<R.ReservationError> {
    match e
    case ReservationNotFound => Some(R.NotFound)
    case ReservationResolved => Some(R.Resolved)
    case ReservationNotCommitted => Some(R.NotCommitted)
    case _ => None
  }

  // ---------- commit, release and restore ----------

  lemma ResolveOk(store: Store, id: Reference, c: Command, next: Store, sku: R.SKU, other: Reference)
    requires Sound(store) && (c == DoCommit(id) || c == DoRelease(id) || c == DoRestore(id))
    requires sku in store.items && C.ResolveAll(store, id, c) == Ok(next)
    ensures sku in next.items
    ensures StatusOf(store.items[sku], id) == None ==> next.items[sku] == store.items[sku]
    ensures StatusOf(store.items[sku], id) != None ==>
      && (StatusOf(store.items[sku], id) == Some(Source(c)) || StatusOf(store.items[sku], id) == Some(Target(c)))
      && StatusOf(next.items[sku], id) == Some(Target(c))
    ensures other != id ==> StatusOf(next.items[sku], other) == StatusOf(store.items[sku], other)
  {
    hide Perform, SortedKeys, StatusOf, Sane;
    var keys := C.LockedFor(store, id);
    C.KeysAreStored(store, C.HasHold(id));
    C.ApplyEachEffect(store, keys, C.Repeat(c, |keys|));
    assert Stored(sku, store.items[sku]);
    assert StatusOf(store.items[sku], id) == None <==> !C.HasHold(id)(store.items[sku]) by {
      StatusIs(store.items[sku], id);
    }
    ResolveOnItem(store.items[sku], id, c, other);
    if sku in keys {
      var k :| 0 <= k < |keys| && keys[k] == sku;
      assert C.Changed(store, next, keys[k], C.Repeat(c, |keys|)[k]);
      SavedKeepsStatus(Perform(store.items[sku], c).value, id);
      SavedKeepsStatus(Perform(store.items[sku], c).value, other);
    }
  }

  lemma StatusIs(item: Item, id: Reference)
    ensures StatusOf(item, id) == None <==> FindHold(item.holds, id) < 0
  {
  }

  lemma SavedKeepsStatus(item: Item, id: Reference)
    ensures StatusOf(Saved(item), id) == StatusOf(item, id)
  {
  }

  /** A transaction that commits, releases or restores a reservation is the line call of that name on its lines, and
      leaves every other reservation alone. When it fails, it fails as the line call does, or because the stock would
      overflow. */
  lemma ResolveRefines(store: Store, id: Reference, c: Command)
    requires Sound(store) && (c == DoCommit(id) || c == DoRelease(id) || c == DoRestore(id))
    ensures match C.ResolveAll(store, id, c)
      case Ok(next) =>
        && Sound(next) && next.items.Keys == store.items.Keys
        && LineCall(Lines(store, id), c) == Ok(Lines(next, id))
        && forall other :: other != id ==> Lines(next, other) == Lines(store, other)
      case Err(e) =>
        e == StockOverflow || (Translated(e).Some? && LineCall(Lines(store, id), c) == Err(Translated(e).value))
  {
    hide Perform, SortedKeys, Sane, Lines, LineCall;
    var keys := C.LockedFor(store, id);
    C.KeysAreStored(store, C.HasHold(id));
    C.ApplyEachEffect(store, keys, C.Repeat(c, |keys|));
    match C.ResolveAll(store, id, c)
    case Ok(next) =>
      ResolveMovesLines(store, id, c, next);
      forall other | other != id ensures Lines(next, other) == Lines(store, other) {
        OthersStay(store, id, c, next, other);
      }
    case Err(e) => ResolveFails(store, id, c, e);
  }

  lemma ResolveMovesLines(store: Store, id: Reference, c: Command, next: Store)
    requires Sound(store) && (c == DoCommit(id) || c == DoRelease(id) || c == DoRestore(id))
    requires C.ResolveAll(store, id, c) == Ok(next) && next.items.Keys == store.items.Keys
    ensures LineCall(Lines(store, id), c) == Ok(Lines(next, id))
  {
    hide Perform, SortedKeys, Sane, StatusOf, Lines, C.ApplyEach;
    var keys := C.LockedFor(store, id);
    var lines := Lines(store, id);
    C.KeysAreStored(store, C.HasHold(id));
    LinesAre(store, id);
    LinesAre(next, id);
    assert keys[0] in keys;
    StatusIs(store.items[keys[0]], id);
    assert keys[0] in lines;
    forall sku | sku in store.items
      ensures sku in lines <==> sku in Lines(next, id)
      ensures sku in lines ==> Lines(next, id)[sku] == Target(c) && (lines[sku] == Source(c) || lines[sku] == Target(c))
    {
      ResolveOk(store, id, c, next, sku, id);
    }
    assert Lines(next, id).Keys == lines.Keys;
    assert Lines(next, id) == R.Become(lines, Target(c));
  }

  lemma ResolveFails(store: Store, id: Reference, c: Command, e: StockError)
    requires Sound(store) && (c == DoCommit(id) || c == DoRelease(id) || c == DoRestore(id))
    requires C.ResolveAll(store, id, c) == Err(e)
    ensures e == StockOverflow || (Translated(e).Some? && LineCall(Lines(store, id), c) == Err(Translated(e).value))
  {
    hide Perform, SortedKeys, Sane, StatusOf, LineCall, Lines, C.ApplyEach, Translated;
    var keys := C.LockedFor(store, id);
    C.KeysAreStored(store, C.HasHold(id));
    if keys == [] {
      LinesAre(store, id);
      forall sku | sku in store.items ensures sku !in Lines(store, id) { StatusIs(store.items[sku], id); }
      NoLine(Lines(store, id), c);
      assert Translated(ReservationNotFound) == Some(R.NotFound) by { NotFoundTranslates(); }
    } else {
      C.ApplyEachEffect(store, keys, C.Repeat(c, |keys|));
      var k :| 0 <= k < |keys| && Perform(store.items[keys[k]], C.Repeat(c, |keys|)[k]) == Err(e);
      assert keys[k] in keys;
      ItemFails(store, id, c, keys[k], e);
    }
  }

  lemma NotFoundTranslates()
    ensures Translated(ReservationNotFound) == Some(R.NotFound)
  {
  }

  lemma ItemFails(store: Store, id: Reference, c: Command, sku: R.SKU, e: StockError)
    requires Sound(store) && (c == DoCommit(id) || c == DoRelease(id) || c == DoRestore(id))
    requires sku in store.items && C.HasHold(id)(store.items[sku]) && Perform(store.items[sku], c) == Err(e)
    ensures e == StockOverflow || (Translated(e).Some? && LineCall(Lines(store, id), c) == Err(Translated(e).value))
  {
    hide Perform, Sane, StatusOf, Lines, LineCall;
    LinesAre(store, id);
    assert Stored(sku, store.items[sku]);
    StatusIs(store.items[sku], id);
    ResolveOnItem(store.items[sku], id, c, id);
    if e != StockOverflow { BlockedLine(Lines(store, id), c, sku); }
  }

  lemma NoLine(lines: R.Lines, c: Command)
    requires forall sku :: sku !in lines
    ensures LineCall(lines, c) == Err(R.NotFound)
  {
    assert lines == map[];
  }

  lemma BlockedLine(lines: R.Lines, c: Command, sku: R.SKU)
    requires sku in lines && lines[sku] != Source(c) && lines[sku] != Target(c)
    ensures LineCall(lines, c) == Err(if c.DoRestore? then R.NotCommitted else R.Resolved)
  {
  }

  lemma OthersStay(store: Store, id: Reference, c: Command, next: Store, other: Reference)
    requires Sound(store) && (c == DoCommit(id) || c == DoRelease(id) || c == DoRestore(id))
    requires C.ResolveAll(store, id, c) == Ok(next) && other != id && next.items.Keys == store.items.Keys
    ensures Lines(next, other) == Lines(store, other)
  {
    hide StatusOf, Perform, Lines, C.ResolveAll, Sound;
    forall sku | sku in store.items ensures StatusOf(next.items[sku], other) == StatusOf(store.items[sku], other) {
      ResolveOk(store, id, c, next, sku, other);
    }
    SameStatuses(store, next, other);
  }

  // ---------- batch expiry ----------

  predicate IsDueOn(item: Item, id: Reference, now: Time) {
    FindHold(item.holds, id) >= 0 && IsDue(item.holds[FindHold(item.holds, id)], now)
  }

  lemma ExpiryOnItem(s: Item, now: Time, id: Reference)
    requires Sane(s) && Perform(s, DoExpireDue(now)).Ok?
    ensures StatusOf(Perform(s, DoExpireDue(now)).value, id) == if IsDueOn(s, id, now) then Some(R.Expired)
      else StatusOf(s, id)
  {
    ExpiryTakesWhatIsDue(s, now);
    hide Sum;
    var after := Expiries(s.holds, now);
    assert forall j :: 0 <= j < |after| ==> after[j].reservation == s.holds[j].reservation;
    assert FindHold(after, id) == FindHold(s.holds, id);
  }

  ghost function DueSkus(store: Store, now: Time, limit: int, id: Reference): set<R.SKU> {
    set sku | sku in store.items && sku in C.Batch(store, now, limit) && IsDueOn(store.items[sku], id, now)
  }

  lemma BatchIsStored(store: Store, now: Time, limit: int)
    ensures NoRepeat(C.Batch(store, now, limit)) && forall k :: k in C.Batch(store, now, limit) ==> k in store.items
  {
    C.KeysAreStored(store, C.HasDue(now));
  }

  /** A batch expires, of each reservation, exactly the lines that were held and due on the items it reached. */
  lemma ExpiryRefines(store: Store, now: Time, limit: int, id: Reference)
    requires Sound(store) && C.ExpireBatch(store, now, limit).Ok?
    ensures var next := C.ExpireBatch(store, now, limit).value;
      && Sound(next) && next.items.Keys == store.items.Keys
      && Lines(next, id) == R.Expire(Lines(store, id), DueSkus(store, now, limit, id))
  {
    hide Perform, Sane, StatusOf, Lines, C.ApplyEach, C.Batch, IsDueOn;
    var keys := C.Batch(store, now, limit);
    var next := C.ExpireBatch(store, now, limit).value;
    BatchIsStored(store, now, limit);
    C.ApplyEachEffect(store, keys, C.Repeat(DoExpireDue(now), |keys|));
    var due := DueSkus(store, now, limit, id);
    forall sku | sku in store.items
      ensures StatusOf(next.items[sku], id) == if sku in due then Some(R.Expired) else StatusOf(store.items[sku], id)
      ensures sku in due ==> StatusOf(store.items[sku], id) == Some(R.Held)
    {
      DueIsHeld(store.items[sku], id, now);
      if sku in keys {
        var k :| 0 <= k < |keys| && keys[k] == sku;
        assert C.Changed(store, next, keys[k], C.Repeat(DoExpireDue(now), |keys|)[k]);
        assert Stored(sku, store.items[sku]);
        ExpiryOnItem(store.items[sku], now, id);
        SavedKeepsStatus(Perform(store.items[sku], DoExpireDue(now)).value, id);
      }
    }
    StatusesExpire(store, next, id, due);
  }

  lemma StatusesExpire(store: Store, next: Store, id: Reference, due: set<R.SKU>)
    requires next.items.Keys == store.items.Keys
    requires forall sku :: sku in store.items ==>
      StatusOf(next.items[sku], id) == if sku in due then Some(R.Expired) else StatusOf(store.items[sku], id)
    requires forall sku :: sku in store.items && sku in due ==> StatusOf(store.items[sku], id) == Some(R.Held)
    ensures Lines(next, id) == R.Expire(Lines(store, id), due)
  {
    hide StatusOf, Lines;
    LinesAre(store, id);
    LinesAre(next, id);
    assert Lines(next, id).Keys == Lines(store, id).Keys;
  }

  lemma SameStatuses(store: Store, next: Store, id: Reference)
    requires next.items.Keys == store.items.Keys
    requires forall sku :: sku in store.items ==> StatusOf(next.items[sku], id) == StatusOf(store.items[sku], id)
    ensures Lines(next, id) == Lines(store, id)
  {
    hide StatusOf, Lines;
    LinesAre(store, id);
    LinesAre(next, id);
    assert Lines(next, id).Keys == Lines(store, id).Keys;
  }

  lemma DueIsHeld(item: Item, id: Reference, now: Time)
    ensures IsDueOn(item, id, now) ==> StatusOf(item, id) == Some(R.Held)
  {
  }

  // ---------- reserving ----------

  lemma ReserveOnItem(s: Item, id: Reference, order: Reference, quantity: Quantity, expiresAt: Time, now: Time,
      other: Reference)
    requires s.Reserve(id, order, quantity, expiresAt, now).Ok?
    ensures var t := s.Reserve(id, order, quantity, expiresAt, now).value;
      && (StatusOf(s, id) == None || StatusOf(s, id) == Some(R.Held)) && StatusOf(t, id) == Some(R.Held)
      && (other != id ==> StatusOf(t, other) == StatusOf(s, other))
  {
    if FindHold(s.holds, id) < 0 {
      C.ReserveAdds(s, id, order, quantity, expiresAt, now);
      var h := Hold(id, order, quantity, R.Held, expiresAt);
      assert (s.holds + [h])[..|s.holds|] == s.holds;
    }
  }

  lemma SkusSplit(lines: seq<C.Line>)
    requires lines != []
    ensures forall sku :: sku in C.Skus(lines) <==> sku == lines[0].sku || sku in C.Skus(lines[1..])
  {
    assert C.Skus(lines) == [lines[0].sku] + C.Skus(lines[1..]);
  }

  /** What a reservation of several lines does to the holds: its own lines end up held and were not resolved before, and
      the holds of other reservations stay. */
  lemma {:induction false} ReserveLinesEffect(store: Store, lines: seq<C.Line>, id: Reference, order: Reference,
      expiresAt: Time, now: Time, other: Reference)
    requires Sound(store) && C.Positive(lines) && forall l :: l in lines ==> l.sku in store.items
    requires C.ReserveLines(store, lines, id, order, expiresAt, now).Ok?
    ensures var next := C.ReserveLines(store, lines, id, order, expiresAt, now).value.0;
      && Sound(next) && next.items.Keys == store.items.Keys
      && forall sku :: sku in store.items ==>
          && (sku in C.Skus(lines) ==>
              (StatusOf(store.items[sku], id) == None || StatusOf(store.items[sku], id) == Some(R.Held))
              && StatusOf(next.items[sku], id) == Some(R.Held))
          && (sku !in C.Skus(lines) ==> StatusOf(next.items[sku], id) == StatusOf(store.items[sku], id))
          && (other != id ==> StatusOf(next.items[sku], other) == StatusOf(store.items[sku], other))
    decreases |lines|
  {
    hide Perform, StatusOf, C.ReserveLines, Sound, FindHold, AfterSave, Item.Reserve, Saved, C.Skus;
    if lines == [] {
      C.ReserveNone(store, lines, id, order, expiresAt, now);
    } else {
      var l, rest := lines[0], lines[1..];
      assert l in lines;
      C.ReserveFirst(store, lines, id, order, expiresAt, now);
      var s := store.items[l.sku];
      var c := DoReserve(id, order, l.quantity, expiresAt, now);
      C.PerformReserve(s, c);
      C.SaveLoaded(store, l.sku, c);
      var t := s.Reserve(id, order, l.quantity, expiresAt, now).value;
      var mid := AfterSave(store, t).value;
      ReserveOnItem(s, id, order, l.quantity, expiresAt, now, other);
      SavedKeepsStatus(t, id);
      SavedKeepsStatus(t, other);
      ReserveLinesEffect(mid, rest, id, order, t.holds[FindHold(t.holds, id)].expiresAt, now, other);
      SkusSplit(lines);
    }
  }
}
