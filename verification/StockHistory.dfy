/** Every run of inventory transactions: what the expiry job, the sellers and any number of reservations do to the
store, in any order. */
module StockHistory {
  import opened Kernel
  import opened Sorting
  import opened StockItems
  import opened StockStore
  import opened StockRuns
  import C = StockCommands
  import R = Reservations

  datatype Event =
    | Reserving(request: seq<C.Line>, id: Reference, order: Reference, expiresAt: Time, now: Time)
    | Committing(id: Reference) | Releasing(id: Reference) | Restoring(id: Reference)
    | Expiring(now: Time, limit: int)
    | Returning(request: seq<C.Line>, reference: Reference)
    | Setting(sku: R.SKU, quantity: int, reference: Reference)
    | Ensuring(sku: R.SKU, seller: Reference)

  ghost function Outcome(store: Store, e: Event): Result<Store, StockError> {
    match e
    case Reserving(request, id, order, expiresAt, now) =>
      (match C.Reserve(store, request, id, order, expiresAt, now) case Ok((next, _)) => Ok(next) case Err(error) =>
        Err(error))
    case Committing(id) => C.ResolveAll(store, id, DoCommit(id))
    case Releasing(id) => C.ResolveAll(store, id, DoRelease(id))
    case Restoring(id) => C.ResolveAll(store, id, DoRestore(id))
    case Expiring(now, limit) => C.ExpireBatch(store, now, limit)
    case Returning(request, reference) => C.ReturnLines(store, request, reference)
    case Setting(sku, quantity, reference) => C.SetStock(store, sku, quantity, reference)
    case Ensuring(sku, seller) => C.EnsureStock(store, sku, seller)
  }

  /** A transaction that fails leaves no trace. */
  ghost function Next(store: Store, e: Event): Store {
    match Outcome(store, e) case Ok(next) => next case Err(_) => store
  }

  ghost function Run(store: Store, events: seq<Event>): Store {
    if events == [] then store else Next(Run(store, events[..|events| - 1]), events[|events| - 1])
  }

  // ---------- commands that touch no hold ----------

  lemma PlainOnItem(s: Item, c: Command, id: Reference)
    requires (c.DoReturn? || c.DoSetAvailable?) && Perform(s, c).Ok?
    ensures StatusOf(Perform(s, c).value, id) == StatusOf(s, id)
  {
  }

  lemma PlainKeepsLines(store: Store, keys: seq<R.SKU>, commands: seq<Command>, id: Reference)
    requires Sound(store) && |keys| == |commands| && NoRepeat(keys) && forall k :: k in keys ==> k in store.items
    requires forall k :: 0 <= k < |commands| ==> commands[k].DoReturn? || commands[k].DoSetAvailable?
    requires C.ApplyEach(store, keys, commands).Ok?
    ensures var next := C.ApplyEach(store, keys, commands).value; Sound(next) && Lines(next, id) == Lines(store, id)
  {
    hide Perform, Sane, StatusOf, Lines, C.ApplyEach;
    C.ApplyEachEffect(store, keys, commands);
    var next := C.ApplyEach(store, keys, commands).value;
    forall sku | sku in store.items ensures StatusOf(next.items[sku], id) == StatusOf(store.items[sku], id) {
      if sku in keys {
        var k :| 0 <= k < |keys| && keys[k] == sku;
        assert C.Changed(store, next, keys[k], commands[k]);
        PlainOnItem(store.items[sku], commands[k], id);
        SavedKeepsStatus(Perform(store.items[sku], commands[k]).value, id);
      }
    }
    SameStatuses(store, next, id);
  }

  lemma ReturnKeepsLines(store: Store, e: Event, id: Reference)
    requires Sound(store) && e.Returning?
    ensures Sound(Next(store, e)) && Lines(Next(store, e), id) == Lines(store, id)
  {
    hide Perform, Sane, C.ApplyEach, C.ParseLines;
    C.ParseSorts(e.request);
    var parsed := C.ParseLines(e.request);
    if parsed.Ok? && e.reference != BLANK && forall l :: l in parsed.value ==> l.sku in store.items {
      C.ParsedMeans(parsed.value);
      C.SkusAreStored(store, parsed.value);
      AscendingIsDistinct(C.Skus(parsed.value));
      var commands := C.ReturnCommands(parsed.value, e.reference);
      if C.ApplyEach(store, C.Skus(parsed.value), commands).Ok? {
        PlainKeepsLines(store, C.Skus(parsed.value), commands, id);
      }
    }
  }

  lemma SetKeepsLines(store: Store, e: Event, id: Reference)
    requires Sound(store) && e.Setting?
    ensures Sound(Next(store, e)) && Lines(Next(store, e), id) == Lines(store, id)
  {
    hide Perform, Sane, C.ApplyEach;
    if 0 <= e.quantity <= MAX_QUANTITY && e.sku in store.items {
      var commands := [DoSetAvailable(store.items[e.sku].seller, e.quantity, e.reference)];
      if C.ApplyEach(store, [e.sku], commands).Ok? { PlainKeepsLines(store, [e.sku], commands, id); }
    }
  }

  lemma NewItemIsSane(item: Item)
    requires item.holds == [] && item.reserved == 0
    ensures Sane(item)
  {
  }

  lemma EnsureKeepsLines(store: Store, e: Event, id: Reference)
    requires Sound(store) && e.Ensuring?
    ensures Sound(Next(store, e)) && Lines(Next(store, e), id) == Lines(store, id)
  {
    hide Sane, Sound, Lines, StatusOf;
    if e.sku !in store.items && Open(e.sku, e.seller).Ok? {
      var item := Open(e.sku, e.seller).value;
      NewItemIsSane(item);
      SaveKeepsSound(store, item);
      var next := Next(store, e);
      LinesAre(store, id);
      LinesAre(next, id);
      StatusIs(Saved(item), id);
      assert Lines(next, id).Keys == Lines(store, id).Keys;
      assert Lines(next, id) == Lines(store, id);
    }
  }

  // ---------- one event on one reservation ----------

  /** The events that name a reservation always use it for the same SKUs. */
  ghost predicate Disciplined(use: Reference -> set<R.SKU>, e: Event) {
    e.Reserving? ==> Elements(C.Skus(e.request)) == use(e.id)
  }

  ghost predicate OneLineSet(use: Reference -> set<R.SKU>, store: Store, id: Reference) {
    Lines(store, id) == map[] || Lines(store, id).Keys == use(id)
  }

  ghost predicate AllHeld(lines: R.Lines, skus: set<R.SKU>) {
    lines.Keys == skus && forall sku :: sku in lines ==> lines[sku] == R.Held
  }

  /** What one event does to the lines of one reservation: nothing, a line call, or its first reservation. */
  ghost predicate OnLines(use: Reference -> set<R.SKU>, before: R.Lines, after: R.Lines, id: Reference) {
    || after == before
    || (exists call :: after == R.After(before, call))
    || (before == map[] && AllHeld(after, use(id)))
  }

  /** The lines of a reservation that holds all of `skus` afterwards and had nothing else before. */
  lemma OwnLines(store: Store, next: Store, id: Reference, skus: seq<R.SKU>)
    requires next.items.Keys == store.items.Keys && forall sku :: sku in skus ==> sku in store.items
    requires Lines(store, id) == map[] || Lines(store, id).Keys == Elements(skus)
    requires forall sku :: sku in store.items ==>
      if sku in skus then
        && (StatusOf(store.items[sku], id) == None || StatusOf(store.items[sku], id) == Some(R.Held))
        && StatusOf(next.items[sku], id) == Some(R.Held)
      else StatusOf(next.items[sku], id) == StatusOf(store.items[sku], id)
    ensures Lines(next, id) == Lines(store, id)
      || (Lines(store, id) == map[] && AllHeld(Lines(next, id), Elements(skus)))
  {
    hide StatusOf, Lines;
    LinesAre(store, id);
    LinesAre(next, id);
    assert forall sku :: sku in skus <==> sku in Elements(skus);
    if Lines(store, id) == map[] {
      assert Lines(next, id).Keys == Elements(skus);
    } else {
      assert Lines(next, id).Keys == Lines(store, id).Keys;
    }
  }

  lemma ReserveOnLines(use: Reference -> set<R.SKU>, store: Store, e: Event, id: Reference)
    requires Sound(store) && e.Reserving? && Disciplined(use, e) && OneLineSet(use, store, id)
    ensures Sound(Next(store, e)) && OnLines(use, Lines(store, id), Lines(Next(store, e), id), id)
  {
    hide Sound, Perform, C.ReserveLines, C.ParseLines, StatusOf, C.Skus, Lines, Elements;
    if Outcome(store, e).Ok? {
      C.ParseSorts(e.request);
      var lines := C.ParseLines(e.request).value;
      ReserveLinesEffect(store, lines, e.id, e.order, e.expiresAt, e.now, id);
      SameSkus(e.request, lines);
      C.SkusAreStored(store, lines);
      if e.id == id {
        OwnLines(store, Next(store, e), id, C.Skus(lines));
      } else {
        SameStatuses(store, Next(store, e), id);
      }
    }
  }

  lemma SameSkus(a: seq<C.Line>, b: seq<C.Line>)
    requires multiset(a) == multiset(b)
    ensures Elements(C.Skus(a)) == Elements(C.Skus(b))
  {
    SkusWithin(a, b);
    SkusWithin(b, a);
  }

  lemma SkusWithin(a: seq<C.Line>, b: seq<C.Line>)
    requires multiset(a) == multiset(b)
    ensures Elements(C.Skus(a)) <= Elements(C.Skus(b))
  {
    forall sku | sku in Elements(C.Skus(a)) ensures sku in Elements(C.Skus(b)) {
      var i :| 0 <= i < |a| && C.Skus(a)[i] == sku;
      assert a[i] in multiset(a) && a[i] in b;
      var j :| 0 <= j < |b| && b[j] == a[i];
      assert C.Skus(b)[j] == sku;
    }
  }

  lemma ResolveOnLines(use: Reference -> set<R.SKU>, store: Store, rid: Reference, c: Command, id: Reference)
    requires Sound(store) && (c == DoCommit(rid) || c == DoRelease(rid) || c == DoRestore(rid))
    ensures var r := C.ResolveAll(store, rid, c);
      r.Ok? ==> Sound(r.value) && OnLines(use, Lines(store, id), Lines(r.value, id), id)
  {
    hide Sound, Lines, C.ResolveAll, R.Commit, R.Release, R.Restore;
    ResolveRefines(store, rid, c);
    if C.ResolveAll(store, rid, c).Ok? && rid == id {
      var call := if c.DoCommit? then R.DoCommit else if c.DoRelease? then R.DoRelease else R.DoRestore;
      assert Lines(C.ResolveAll(store, rid, c).value, id) == R.After(Lines(store, id), call);
    }
  }

  lemma EventOnLines(use: Reference -> set<R.SKU>, store: Store, e: Event, id: Reference)
    requires Sound(store) && Disciplined(use, e) && OneLineSet(use, store, id)
    ensures Sound(Next(store, e)) && OnLines(use, Lines(store, id), Lines(Next(store, e), id), id)
  {
    hide Sound, Lines, OneLineSet, C.Reserve, C.ResolveAll, C.ExpireBatch, C.ReturnLines, C.SetStock, C.EnsureStock;
    match e
    case Reserving(_, _, _, _, _) => ReserveOnLines(use, store, e, id);
    case Committing(rid) => ResolveOnLines(use, store, rid, DoCommit(rid), id);
    case Releasing(rid) => ResolveOnLines(use, store, rid, DoRelease(rid), id);
    case Restoring(rid) => ResolveOnLines(use, store, rid, DoRestore(rid), id);
    case Expiring(now, limit) =>
      if C.ExpireBatch(store, now, limit).Ok? {
        ExpiryRefines(store, now, limit, id);
        assert R.Expire(Lines(store, id), DueSkus(store, now, limit, id))
            == R.After(Lines(store, id), R.DoExpire(DueSkus(store, now, limit, id)));
      }
    case Returning(_, _) => ReturnKeepsLines(store, e, id);
    case Setting(_, _, _) => SetKeepsLines(store, e, id);
    case Ensuring(_, _) => EnsureKeepsLines(store, e, id);
  }

  // ---------- runs ----------

  lemma LinesStayUniform(use: Reference -> set<R.SKU>, before: R.Lines, after: R.Lines, id: Reference)
    requires OnLines(use, before, after, id) && R.Uniform(before) && (before == map[] || before.Keys == use(id))
    ensures R.Uniform(after) && (after == map[] || after.Keys == use(id))
    ensures R.Dead(before) ==> R.Dead(after)
  {
    hide R.Dead, R.AllCommitted;
    if after != before && exists call :: after == R.After(before, call) {
      var call :| after == R.After(before, call);
      R.CallKeepsUniform(before, call);
    } else if after != before {
      assert R.OnlyIn(after, R.Held, R.Expired);
      NothingIsDead(before);
    }
  }

  lemma NothingIsDead(lines: R.Lines)
    ensures lines == map[] ==> !R.Dead(lines)
  {
  }

  lemma EmptyRun(use: Reference -> set<R.SKU>, id: Reference)
    ensures Sound(EMPTY) && R.Uniform(Lines(EMPTY, id)) && OneLineSet(use, EMPTY, id)
  {
    assert Lines(EMPTY, id).Keys == {};
  }

  ghost predicate Fit(use: Reference -> set<R.SKU>, store: Store, id: Reference) {
    Sound(store) && R.Uniform(Lines(store, id)) && OneLineSet(use, store, id)
  }

  lemma EventKeepsFit(use: Reference -> set<R.SKU>, store: Store, e: Event, id: Reference)
    requires Fit(use, store, id) && Disciplined(use, e)
    ensures Fit(use, Next(store, e), id)
    ensures R.Dead(Lines(store, id)) ==> R.Dead(Lines(Next(store, e), id))
  {
    hide Sound, Lines, Next, R.Uniform, R.Dead, Disciplined, OnLines;
    EventOnLines(use, store, e, id);
    LinesStayUniform(use, Lines(store, id), Lines(Next(store, e), id), id);
  }

  /** Over every run in which each reservation is used with one set of lines, whatever the order of reserving,
      committing, releasing, restoring and expiring in batches: the store is sound and the lines of every reservation
      are all equal, or a mix of held and expired ones. */
  lemma {:induction false} ReservationsStayUniform(use: Reference -> set<R.SKU>, events: seq<Event>, id: Reference)
    requires forall e :: e in events ==> Disciplined(use, e)
    ensures Fit(use, Run(EMPTY, events), id)
  {
    if events == [] {
      EmptyRun(use, id);
    } else {
      hide Fit, Next, Disciplined;
      ReservationsStayUniform(use, events[..|events| - 1], id);
      EventKeepsFit(use, Run(EMPTY, events[..|events| - 1]), events[|events| - 1], id);
    }
  }

  lemma {:induction false} DeadStaysDead(use: Reference -> set<R.SKU>, store: Store, events: seq<Event>, id: Reference)
    requires Fit(use, store, id) && R.Dead(Lines(store, id)) && forall e :: e in events ==> Disciplined(use, e)
    ensures Fit(use, Run(store, events), id) && R.Dead(Lines(Run(store, events), id))
  {
    hide Fit, Next, Disciplined, R.Dead;
    if events != [] {
      DeadStaysDead(use, store, events[..|events| - 1], id);
      EventKeepsFit(use, Run(store, events[..|events| - 1]), events[|events| - 1], id);
    }
  }

  /** Once a release or a restore has succeeded, no line is committed and none can become committed, whatever comes
      later. */
  lemma ReturnedStaysReturned(use: Reference -> set<R.SKU>, before: seq<Event>, last: Event, later: seq<Event>,
      id: Reference)
    requires forall e :: e in before || e in later ==> Disciplined(use, e)
    requires last == Releasing(id) || last == Restoring(id)
    requires Outcome(Run(EMPTY, before), last).Ok?
    ensures var end := Run(Next(Run(EMPTY, before), last), later);
      forall sku :: sku in Lines(end, id) ==> Lines(end, id)[sku] != R.Committed
    ensures Fit(use, Run(Next(Run(EMPTY, before), last), later), id)
  {
    ReservationsStayUniform(use, before, id);
    EventKeepsFit(use, Run(EMPTY, before), last, id);
    ReturnKills(Run(EMPTY, before), last, id);
    DeadStaysDead(use, Next(Run(EMPTY, before), last), later, id);
    hide Next, Run, Lines;
    R.DeadIsNotCommitted(Lines(Run(Next(Run(EMPTY, before), last), later), id));
  }

  lemma ReturnKills(store: Store, e: Event, id: Reference)
    requires Sound(store) && (e == Releasing(id) || e == Restoring(id)) && Outcome(store, e).Ok?
    ensures R.Dead(Lines(Next(store, e), id))
  {
    hide Sound, Lines, C.ResolveAll;
    var c := if e.Releasing? then DoRelease(id) else DoRestore(id);
    ResolveRefines(store, id, c);
    R.BecomeIsUniform(Lines(store, id), Target(c));
  }
}
