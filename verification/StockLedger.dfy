/** The ledger writes an entry with the same SKU, reason and reference only once. When no two changes of a SKU share
their external reference, that never drops a movement, and the ledger accounts for every unit. */
module StockLedger {
  import opened Kernel
  import opened StockItems
  import opened StockStore
  import opened StockClients
  import R = Reservations

  // ---------- the commands a SKU has taken ----------

  function Flat(batches: seq<seq<Command>>): seq<Command> {
    if batches == [] then [] else Flat(batches[..|batches| - 1]) + batches[|batches| - 1]
  }

  /** The reference a command takes from outside, with the reason it is entered for. */
  function External(c: Command): Option<(Reason, Reference)> {
    match c
    case DoRestock(_, _, reference) => Some((ForRestock, reference))
    case DoSetAvailable(_, _, reference) => Some((ForCorrection, reference))
    case DoReturn(reference, _) => Some((ForReturn, reference))
    case _ => None
  }

  predicate SameReference(a: Command, b: Command) { External(a) != None && External(a) == External(b) }

  predicate ReturnsReservation(a: Command, b: Command) { a.DoReturn? && b.DoReserve? && a.reference == b.id }

  /** No external reference is used twice for a reason, and none for a return is a reservation. */
  ghost predicate Referenced(commands: seq<Command>) {
    && (forall i, j :: 0 <= i < j < |commands| ==> !SameReference(commands[i], commands[j]))
    && (forall i, j :: 0 <= i < |commands| && 0 <= j < |commands| ==> !ReturnsReservation(commands[i], commands[j]))
  }

  ghost predicate NoEntryTwice(movements: seq<Movement>) {
    forall i, j :: 0 <= i < j < |movements| ==> !SameEntry(movements[i], movements[j])
  }

  // ---------- what a movement says about the item ----------

  predicate HasStatus(holds: seq<Hold>, id: Reference, a: R.HoldStatus, b: R.HoldStatus) {
    var i := FindHold(holds, id);
    i >= 0 && (holds[i].status == a || holds[i].status == b)
  }

  predicate Uses(commands: seq<Command>, reason: Reason, reference: Reference) {
    exists k :: 0 <= k < |commands| && External(commands[k]) == Some((reason, reference))
  }

  /** Where the entry comes from. */
  ghost predicate Explained(item: Item, commands: seq<Command>, m: Movement) {
    m.sku == item.sku
    && match m.reason
       case ForReserve => FindHold(item.holds, m.reference) >= 0
       case ForCommit => HasStatus(item.holds, m.reference, R.Committed, R.Restored)
       case ForRelease => HasStatus(item.holds, m.reference, R.Released, R.Expired)
       case ForReturn => HasStatus(item.holds, m.reference, R.Restored, R.Restored)
         || Uses(commands, ForReturn, m.reference)
       case _ => Uses(commands, m.reason, m.reference)
  }

  predicate Reserved(commands: seq<Command>, id: Reference) {
    exists k :: 0 <= k < |commands| && commands[k].DoReserve? && commands[k].id == id
  }

  /** The movements of the whole history of an item: every one is explained, none is entered twice, and every hold goes
      back to a command. */
  ghost predicate Booked(item: Item, commands: seq<Command>) {
    && OneHoldEach(item.holds)
    && NoEntryTwice(item.movements)
    && (forall m :: m in item.movements ==> Explained(item, commands, m))
    && (forall h :: h in item.holds ==> Reserved(commands, h.reservation))
  }

  // ---------- every command keeps the books ----------

  /** Holds keep their place; a held one may be resolved and a committed one restored. */
  ghost predicate HoldsMove(a: seq<Hold>, b: seq<Hold>) {
    && |a| <= |b|
    && forall i :: 0 <= i < |a| ==>
        && b[i].reservation == a[i].reservation
        && (b[i].status == a[i].status || a[i].status == R.Held
          || (a[i].status == R.Committed && b[i].status == R.Restored))
  }

  lemma FoundAgain(a: seq<Hold>, b: seq<Hold>, id: Reference)
    requires HoldsMove(a, b) && FindHold(a, id) >= 0
    ensures FindHold(b, id) == FindHold(a, id)
  {
    var i := FindHold(a, id);
    assert b[i].reservation == a[i].reservation;
    forall j | 0 <= j < i ensures b[j].reservation != id { assert b[j].reservation == a[j].reservation; }
  }

  /** What explains an entry goes on explaining it. */
  lemma ExplanationLasts(s: Item, t: Item, before: seq<Command>, after: seq<Command>, m: Movement)
    requires Explained(s, before, m) && t.sku == s.sku && HoldsMove(s.holds, t.holds) && before <= after
    ensures Explained(t, after, m)
  {
    if FindHold(s.holds, m.reference) >= 0 { FoundAgain(s.holds, t.holds, m.reference); }
    if Uses(before, m.reason, m.reference) {
      var k :| 0 <= k < |before| && External(before[k]) == Some((m.reason, m.reference));
      assert after[k] == before[k];
    }
  }

  lemma ReservedLasts(before: seq<Command>, after: seq<Command>, id: Reference)
    requires before <= after && Reserved(before, id)
    ensures Reserved(after, id)
  {
    var k :| 0 <= k < |before| && before[k].DoReserve? && before[k].id == id;
    assert after[k] == before[k];
  }

  /** One more movement is entered, under a key that no earlier one has. */
  lemma EntryBooked(s: Item, t: Item, before: seq<Command>, after: seq<Command>, m: Movement)
    requires Booked(s, before) && t.sku == s.sku && before <= after
    requires HoldsMove(s.holds, t.holds) && OneHoldEach(t.holds) && t.movements == s.movements + [m]
    requires Explained(t, after, m) && forall x :: x in s.movements ==> !SameEntry(x, m)
    requires forall h :: h in t.holds ==> Reserved(after, h.reservation)
    ensures Booked(t, after)
  {
    hide Explained, Reserved;
    forall x | x in t.movements ensures Explained(t, after, x) {
      if x in s.movements { ExplanationLasts(s, t, before, after, x); }
    }
    forall i, j | 0 <= i < j < |t.movements| ensures !SameEntry(t.movements[i], t.movements[j]) {
      assert t.movements[i] == s.movements[i];
      if j < |s.movements| { assert t.movements[j] == s.movements[j]; }
    }
  }

  lemma CommandsGrow(s: Item, before: seq<Command>, after: seq<Command>)
    requires Booked(s, before) && before <= after
    ensures Booked(s, after)
  {
    hide Explained, Reserved;
    forall m | m in s.movements ensures Explained(s, after, m) { ExplanationLasts(s, s, before, after, m); }
    forall h | h in s.holds ensures Reserved(after, h.reservation) { ReservedLasts(before, after, h.reservation); }
  }

  lemma UpdateMoves(holds: seq<Hold>, i: nat, target: R.HoldStatus, commands: seq<Command>)
    requires i < |holds| && OneHoldEach(holds) && forall h :: h in holds ==> Reserved(commands, h.reservation)
    requires holds[i].status == R.Held || (holds[i].status == R.Committed && target == R.Restored)
    ensures var after := holds[i := holds[i].(status := target)];
      && HoldsMove(holds, after) && OneHoldEach(after)
      && FindHold(after, holds[i].reservation) == i && HasStatus(after, holds[i].reservation, target, target)
      && forall h :: h in after ==> Reserved(commands, h.reservation)
  {
    hide Reserved;
    var after := holds[i := holds[i].(status := target)];
    FindsAt(after, i);
    forall h | h in after ensures Reserved(commands, h.reservation) {
      var j :| 0 <= j < |after| && after[j] == h;
      assert holds[j] in holds && h.reservation == holds[j].reservation;
    }
  }

  lemma ResolveBooked(s: Item, commands: seq<Command>, id: Reference, target: R.HoldStatus)
    requires Booked(s, commands) && (target == R.Committed || target == R.Released || target == R.Expired)
    requires s.Resolve(id, target).Ok?
    ensures Booked(s.Resolve(id, target).value, commands)
  {
    hide Reserved;
    var t := s.Resolve(id, target).value;
    var i := FindHold(s.holds, id);
    if s.holds[i].status == R.Held {
      var m := t.movements[|s.movements|];
      UpdateMoves(s.holds, i, target, commands);
      assert t.movements == s.movements + [m];
      forall x | x in s.movements ensures !SameEntry(x, m) { assert Explained(s, commands, x); }
      EntryBooked(s, t, commands, commands, m);
    }
  }

  lemma RestoreBooked(s: Item, commands: seq<Command>, id: Reference)
    requires Booked(s, commands) && Referenced(commands) && s.Restore(id).Ok?
    ensures Booked(s.Restore(id).value, commands)
  {
    var t := s.Restore(id).value;
    var i := FindHold(s.holds, id);
    if s.holds[i].status == R.Committed {
      var m := t.movements[|s.movements|];
      UpdateMoves(s.holds, i, R.Restored, commands);
      assert t.movements == s.movements + [m];
      assert s.holds[i] in s.holds;
      var r :| 0 <= r < |commands| && commands[r].DoReserve? && commands[r].id == id;
      forall k | 0 <= k < |commands| ensures External(commands[k]) != Some((ForReturn, id)) {
        assert !ReturnsReservation(commands[k], commands[r]);
      }
      forall x | x in s.movements ensures !SameEntry(x, m) { assert Explained(s, commands, x); }
      EntryBooked(s, t, commands, commands, m);
    }
  }

  lemma {:induction false} ExpireEachBooked(s: Item, commands: seq<Command>, ids: seq<Reference>)
    requires Booked(s, commands) && s.ExpireEach(ids).Ok?
    ensures Booked(s.ExpireEach(ids).value, commands)
    decreases |ids|
  {
    hide Booked;
    if ids != [] {
      ResolveBooked(s, commands, ids[0], R.Expired);
      ExpireEachBooked(s.Expire(ids[0]).value, commands, ids[1..]);
    }
  }

  lemma ReserveBooked(s: Item, commands: seq<Command>, c: Command)
    requires Booked(s, commands) && c.DoReserve? && Perform(s, c).Ok?
    ensures Booked(Perform(s, c).value, commands + [c])
  {
    hide Reserved;
    var t := Perform(s, c).value;
    var after := commands + [c];
    if FindHold(s.holds, c.id) >= 0 {
      CommandsGrow(s, commands, after);
    } else {
      var h := Hold(c.id, c.order, c.quantity, R.Held, c.expiresAt);
      var m := Movement(s.sku, 0, ForReserve, c.id);
      assert t.holds == s.holds + [h] && t.movements == s.movements + [m];
      assert t.holds[|s.holds|].reservation == c.id;
      assert Reserved(after, c.id) by { NamesItself(commands, c); }
      forall k | k in t.holds ensures Reserved(after, k.reservation) {
        if k in s.holds { ReservedLasts(commands, after, k.reservation); }
      }
      forall x | x in s.movements ensures !SameEntry(x, m) { assert Explained(s, commands, x); }
      EntryBooked(s, t, commands, after, m);
    }
  }

  lemma NamesItself(commands: seq<Command>, c: Command)
    requires c.DoReserve?
    ensures Reserved(commands + [c], c.id)
  {
    assert (commands + [c])[|commands|] == c;
  }

  lemma ExternalBooked(s: Item, commands: seq<Command>, c: Command)
    requires Booked(s, commands) && Referenced(commands + [c]) && External(c) != None && Perform(s, c).Ok?
    ensures Booked(Perform(s, c).value, commands + [c])
  {
    var t := Perform(s, c).value;
    var after := commands + [c];
    assert after[|commands|] == c;
    if t == s {
      CommandsGrow(s, commands, after);
    } else {
      var m := t.movements[|s.movements|];
      var (reason, reference) := External(c).value;
      assert t.movements == s.movements + [m] && t.holds == s.holds && m.reason == reason && m.reference == reference;
      assert External(after[|commands|]) == Some((reason, reference));
      forall x | x in s.movements ensures !SameEntry(x, m) {
        if SameEntry(x, m) { NotExplained(s, commands, c, x); }
      }
      forall h | h in t.holds ensures Reserved(after, h.reservation) { ReservedLasts(commands, after, h.reservation); }
      EntryBooked(s, t, commands, after, m);
    }
  }

  /** Under the discipline, nothing that is entered already has the key of a new external reference. */
  lemma NotExplained(s: Item, commands: seq<Command>, c: Command, x: Movement)
    requires Booked(s, commands) && Referenced(commands + [c]) && External(c) == Some((x.reason, x.reference))
    ensures !Explained(s, commands, x)
  {
    var after := commands + [c];
    assert after[|commands|] == c;
    forall k | 0 <= k < |commands| ensures External(commands[k]) != External(c) {
      assert !SameReference(after[k], after[|commands|]) && after[k] == commands[k];
    }
    if c.DoReturn? {
      forall k | 0 <= k < |commands| ensures !(commands[k].DoReserve? && commands[k].id == c.reference) {
        assert !ReturnsReservation(after[|commands|], after[k]) && after[k] == commands[k];
      }
      forall h | h in s.holds ensures h.reservation != c.reference { assert Reserved(commands, h.reservation); }
    }
  }

  lemma PerformBooked(s: Item, commands: seq<Command>, c: Command)
    requires Booked(s, commands) && Referenced(commands + [c]) && Perform(s, c).Ok?
    ensures Booked(Perform(s, c).value, commands + [c])
  {
    hide Booked, Referenced;
    match c
    case DoRestock(_, _, _) => ExternalBooked(s, commands, c);
    case DoSetAvailable(_, _, _) => ExternalBooked(s, commands, c);
    case DoReturn(_, _) => ExternalBooked(s, commands, c);
    case DoReserve(_, _, _, _, _) => ReserveBooked(s, commands, c);
    case DoCommit(id) => CommandsGrow(s, commands, commands + [c]); ResolveBooked(s, commands + [c], id, R.Committed);
    case DoRelease(id) => CommandsGrow(s, commands, commands + [c]); ResolveBooked(s, commands + [c], id, R.Released);
    case DoExpire(id) => CommandsGrow(s, commands, commands + [c]); ResolveBooked(s, commands + [c], id, R.Expired);
    case DoRestore(id) => CommandsGrow(s, commands, commands + [c]); RestoreBooked(s, commands + [c], id);
    case DoExpireDue(now) => CommandsGrow(s, commands, commands + [c]);
      ExpireEachBooked(s, commands + [c], DueIds(s.holds, now));
  }

  lemma ReferencedPrefix(commands: seq<Command>, more: seq<Command>)
    requires Referenced(commands + more)
    ensures Referenced(commands)
  {
    var all := commands + more;
    forall i, j | 0 <= i < j < |commands| ensures !SameReference(commands[i], commands[j]) {
      assert !SameReference(all[i], all[j]);
    }
    forall i, j | 0 <= i < |commands| && 0 <= j < |commands| ensures !ReturnsReservation(commands[i], commands[j]) {
      assert !ReturnsReservation(all[i], all[j]);
    }
  }

  /** The whole history of an item is booked and accounts for what is physically there. */
  lemma {:induction false} HistoryIsBooked(sku: R.SKU, seller: Reference, commands: seq<Command>)
    requires RunAll(Blank(sku, seller), commands).Ok?
    ensures var h := RunAll(Blank(sku, seller), commands).value;
      && Accounts(Blank(sku, seller), h)
      && (Referenced(commands) ==> Booked(h, commands))
  {
    hide Perform;
    var start := Blank(sku, seller);
    if commands != [] {
      hide Booked, Referenced, Accounts, Sane;
      var init, last := commands[..|commands| - 1], commands[|commands| - 1];
      assert commands == init + [last];
      HistoryIsBooked(sku, seller, init);
      var mid := RunAll(start, init).value;
      AccountsMeans(start, mid);
      CommandKeepsItem(mid, last);
      AccountsChain(start, mid, Perform(mid, last).value);
      if Referenced(commands) {
        ReferencedPrefix(init, [last]);
        PerformBooked(mid, init, last);
      }
    }
  }

  // ---------- the history of a stored item ----------

  /** The whole history of the item in one object that was never saved. */
  function Whole(sku: R.SKU, log: Log): Result<Item, StockError> {
    RunAll(Blank(sku, log.seller), Flat(log.batches))
  }

  /** Earlier movements and the version make no difference to what a command does. */
  function Shifted(s: Item, earlier: seq<Movement>, version: nat): Item {
    s.(movements := earlier + s.movements, version := version)
  }

  lemma RecordShifted(s: Item, earlier: seq<Movement>, version: nat, reason: Reason, reference: Reference, delta: int)
    ensures Shifted(s, earlier, version).Record(reason, reference, delta) == Shifted(s.Record(reason, reference, delta),
      earlier, version)
  {
    var m := Movement(s.sku, delta, reason, reference);
    assert (earlier + s.movements) + [m] == earlier + (s.movements + [m]);
  }

  ghost predicate SameShifted(a: Result<Item, StockError>, b: Result<Item, StockError>, earlier: seq<Movement>,
      version: nat) {
    match (a, b)
    case (Ok(x), Ok(y)) => y == Shifted(x, earlier, version)
    case (Err(e), Err(f)) => e == f
    case _ => false
  }

  lemma ResolveShifted(s: Item, earlier: seq<Movement>, version: nat, id: Reference, target: R.HoldStatus)
    ensures SameShifted(s.Resolve(id, target), Shifted(s, earlier, version).Resolve(id, target), earlier, version)
  {
    var i := FindHold(s.holds, id);
    if s.Resolve(id, target).Ok? && s.holds[i].status != target {
      var q: int := s.holds[i].quantity;
      var t := s.Resolve(id, target).value;
      var r := s.(reserved := t.reserved, available := t.available, holds := t.holds);
      if target == R.Committed { RecordShifted(r, earlier, version, ForCommit, id, 0 - q); }
      else { RecordShifted(r, earlier, version, ForRelease, id, 0); }
    }
  }

  lemma {:induction false} ExpireEachShifted(s: Item, earlier: seq<Movement>, version: nat, ids: seq<Reference>)
    ensures SameShifted(s.ExpireEach(ids), Shifted(s, earlier, version).ExpireEach(ids), earlier, version)
    decreases |ids|
  {
    if ids != [] {
      ResolveShifted(s, earlier, version, ids[0], R.Expired);
      if s.Expire(ids[0]).Ok? { ExpireEachShifted(s.Expire(ids[0]).value, earlier, version, ids[1..]); }
    }
  }

  lemma PerformShifted(s: Item, earlier: seq<Movement>, version: nat, c: Command)
    ensures SameShifted(Perform(s, c), Perform(Shifted(s, earlier, version), c), earlier, version)
  {
    match c
    case DoCommit(id) => ResolveShifted(s, earlier, version, id, R.Committed);
    case DoRelease(id) => ResolveShifted(s, earlier, version, id, R.Released);
    case DoExpire(id) => ResolveShifted(s, earlier, version, id, R.Expired);
    case DoExpireDue(now) => ExpireEachShifted(s, earlier, version, DueIds(s.holds, now));
    case _ =>
      if Perform(s, c).Ok? && Perform(s, c).value != s {
        var t := Perform(s, c).value;
        var m := t.movements[|s.movements|];
        RecordShifted(s.(available := t.available, reserved := t.reserved, holds := t.holds), earlier, version,
          m.reason, m.reference, m.delta);
      }
  }

  lemma {:induction false} RunShifted(s: Item, earlier: seq<Movement>, version: nat, commands: seq<Command>)
    ensures SameShifted(RunAll(s, commands), RunAll(Shifted(s, earlier, version), commands), earlier, version)
  {
    hide Perform;
    if commands != [] {
      var init := commands[..|commands| - 1];
      RunShifted(s, earlier, version, init);
      if RunAll(s, init).Ok? { PerformShifted(RunAll(s, init).value, earlier, version, commands[|commands| - 1]); }
    }
  }

  lemma {:induction false} RunConcat(s: Item, a: seq<Command>, b: seq<Command>)
    requires RunAll(s, a).Ok?
    ensures RunAll(s, a + b) == RunAll(RunAll(s, a).value, b)
  {
    hide Perform;
    if b == [] {
      assert a + b == a;
    } else {
      RunConcat(s, a, b[..|b| - 1]);
      assert (a + b)[..|a + b| - 1] == a + b[..|b| - 1];
    }
  }

  /** A stored item is its whole history without the movements, which have gone to the ledger. */
  lemma {:induction false} ReplayIsWhole(sku: R.SKU, log: Log)
    requires Replay(sku, log).Ok?
    ensures Whole(sku, log).Ok?
    ensures Replay(sku, log).value == Whole(sku, log).value.(movements := [], version := |log.batches|)
    decreases |log.batches|
  {
    hide Perform, RunAll;
    if log.batches == [] {
      NothingRun(Blank(sku, log.seller));
    } else {
      var n := |log.batches| - 1;
      var init, last := Log(log.seller, log.batches[..n]), log.batches[n];
      ReplayIsWhole(sku, init);
      WholeGrows(sku, init, last);
      assert log == Log(log.seller, init.batches + [last]);
    }
  }

  /** What a batch that is run on the stored item does to the whole history. */
  lemma WholeGrows(sku: R.SKU, log: Log, commands: seq<Command>)
    requires Whole(sku, log).Ok?
      && RunAll(Whole(sku, log).value.(movements := [], version := |log.batches|), commands).Ok?
    ensures var h := Whole(sku, log).value;
      var next := Whole(sku, Log(log.seller, log.batches + [commands]));
      var item := RunAll(h.(movements := [], version := |log.batches|), commands).value;
      && next.Ok? && item.version == |log.batches|
      && next.value == item.(movements := h.movements + item.movements, version := 0)
  {
    hide Perform, RunAll;
    var h := Whole(sku, log).value;
    var base := h.(movements := [], version := |log.batches|);
    assert (log.batches + [commands])[..|log.batches|] == log.batches;
    RunKeepsIdentity(Blank(sku, log.seller), Flat(log.batches));
    RunKeepsIdentity(base, commands);
    RunConcat(Blank(sku, log.seller), Flat(log.batches), commands);
    RunShifted(base, h.movements, 0, commands);
    assert h.movements + [] == h.movements;
    assert Shifted(base, h.movements, 0) == h;
  }

  // ---------- the ledger ----------

  function OfSku(ledger: seq<Movement>, sku: R.SKU): seq<Movement> {
    if ledger == [] then []
    else
      var rest := OfSku(ledger[..|ledger| - 1], sku);
      if ledger[|ledger| - 1].sku == sku then rest + [ledger[|ledger| - 1]] else rest
  }

  lemma OfSkuAppend(ledger: seq<Movement>, m: Movement, sku: R.SKU)
    ensures OfSku(ledger + [m], sku) == OfSku(ledger, sku) + (if m.sku == sku then [m] else [])
  {
    assert (ledger + [m])[..|ledger|] == ledger;
  }

  lemma {:induction false} KnownOfSku(ledger: seq<Movement>, m: Movement)
    ensures Known(ledger, m) <==> Known(OfSku(ledger, m.sku), m)
  {
    if ledger != [] {
      var init, last := ledger[..|ledger| - 1], ledger[|ledger| - 1];
      KnownOfSku(init, m);
      assert ledger == init + [last];
      KnownAppend(init, last, m);
      KnownAppend(OfSku(init, m.sku), last, m);
    }
  }

  lemma KnownAppend(ledger: seq<Movement>, x: Movement, m: Movement)
    ensures Known(ledger + [x], m) <==> Known(ledger, m) || SameEntry(x, m)
  {
    if Known(ledger, m) {
      var i :| 0 <= i < |ledger| && SameEntry(ledger[i], m);
      assert (ledger + [x])[i] == ledger[i];
    }
    assert (ledger + [x])[|ledger|] == x;
  }

  lemma {:induction false} OthersUnentered(ledger: seq<Movement>, movements: seq<Movement>, sku: R.SKU)
    requires forall m :: m in movements ==> m.sku != sku
    ensures OfSku(Entered(ledger, movements), sku) == OfSku(ledger, sku)
    decreases |movements|
  {
    if movements != [] {
      assert movements[0] in movements;
      OfSkuAppend(ledger, movements[0], sku);
      OthersUnentered(if Known(ledger, movements[0]) then ledger else ledger + [movements[0]], movements[1..], sku);
    }
  }

  lemma {:induction false} AllEntered(ledger: seq<Movement>, movements: seq<Movement>, sku: R.SKU)
    requires forall m :: m in movements ==> m.sku == sku
    requires NoEntryTwice(OfSku(ledger, sku) + movements)
    ensures OfSku(Entered(ledger, movements), sku) == OfSku(ledger, sku) + movements
    decreases |movements|
  {
    if movements != [] {
      var m := movements[0];
      var known := OfSku(ledger, sku);
      assert m in movements;
      KnownOfSku(ledger, m);
      forall i | 0 <= i < |known| ensures !SameEntry(known[i], m) {
        assert (known + movements)[i] == known[i] && (known + movements)[|known|] == m;
      }
      OfSkuAppend(ledger, m, sku);
      assert (known + [m]) + movements[1..] == known + movements;
      AllEntered(ledger + [m], movements[1..], sku);
    } else {
      assert OfSku(ledger, sku) + [] == OfSku(ledger, sku);
    }
  }

  lemma OnceInFront(a: seq<Movement>, b: seq<Movement>)
    requires NoEntryTwice(a + b)
    ensures NoEntryTwice(a)
  {
    forall i, j | 0 <= i < j < |a| ensures !SameEntry(a[i], a[j]) { assert !SameEntry((a + b)[i], (a + b)[j]); }
  }

  /** The ledger never holds two entries with the same key. */
  lemma {:induction false} EnteredOnce(ledger: seq<Movement>, movements: seq<Movement>, sku: R.SKU)
    requires NoEntryTwice(OfSku(ledger, sku))
    ensures NoEntryTwice(OfSku(Entered(ledger, movements), sku))
    decreases |movements|
  {
    if movements != [] {
      var m := movements[0];
      KnownOfSku(ledger, m);
      OfSkuAppend(ledger, m, sku);
      EnteredOnce(if Known(ledger, m) then ledger else ledger + [m], movements[1..], sku);
    }
  }

  /** A save enters all movements of its item exactly when none has the key of a stored one or of another of its own. */
  lemma SaveEntersAllExactly(ledger: seq<Movement>, movements: seq<Movement>, sku: R.SKU)
    requires (forall m :: m in movements ==> m.sku == sku) && NoEntryTwice(OfSku(ledger, sku))
    ensures OfSku(Entered(ledger, movements), sku) == OfSku(ledger, sku) + movements
       <==> NoEntryTwice(OfSku(ledger, sku) + movements)
  {
    hide OfSku, Entered, NoEntryTwice;
    EnteredOnce(ledger, movements, sku);
    if NoEntryTwice(OfSku(ledger, sku) + movements) { AllEntered(ledger, movements, sku); }
  }

  // ---------- runs ----------

  ghost predicate OwnMovements(item: Item) {
    forall m :: m in item.movements ==> m.sku == item.sku
  }

  lemma {:induction false} ExpireEachOwn(s: Item, ids: seq<Reference>)
    requires OwnMovements(s) && s.ExpireEach(ids).Ok?
    ensures OwnMovements(s.ExpireEach(ids).value)
    decreases |ids|
  {
    if ids != [] { ExpireEachOwn(s.Expire(ids[0]).value, ids[1..]); }
  }

  lemma PerformOwn(s: Item, c: Command)
    requires OwnMovements(s) && Perform(s, c).Ok?
    ensures OwnMovements(Perform(s, c).value)
  {
    if c.DoExpireDue? { ExpireEachOwn(s, DueIds(s.holds, c.now)); }
  }

  lemma {:induction false} RunOwn(s: Item, commands: seq<Command>)
    requires OwnMovements(s) && RunAll(s, commands).Ok?
    ensures OwnMovements(RunAll(s, commands).value)
  {
    hide Perform, OwnMovements;
    if commands != [] {
      RunOwn(s, commands[..|commands| - 1]);
      PerformOwn(RunAll(s, commands[..|commands| - 1]).value, commands[|commands| - 1]);
    }
  }

  /** What the ledger holds of a SKU: never an entry twice, and every movement if no two share a key. */
  ghost predicate Entries(w: World, sku: R.SKU) {
    && NoEntryTwice(OfSku(w.store.ledger, sku))
    && (sku !in w.logs ==> OfSku(w.store.ledger, sku) == [])
    && (sku in w.logs ==>
        && Whole(sku, w.logs[sku]).Ok?
        && (NoEntryTwice(Whole(sku, w.logs[sku]).value.movements) ==>
            OfSku(w.store.ledger, sku) == Whole(sku, w.logs[sku]).value.movements))
  }

  lemma StartEntries(sku: R.SKU)
    ensures Entries(START, sku)
  {
  }

  /** A save enters the movements of its own item and no others. */
  lemma SaveEntries(w: World, id: nat, sku: R.SKU)
    requires Linear(w) && id in w.clients && AfterSave(w.store, w.clients[id].item).Ok? && Entries(w, sku)
    ensures Entries(Next(w, DoSave(id)), sku)
  {
    hide Perform, RunAll, Replay, Referenced, Flat, StoreReplays;
    var c := w.clients[id];
    var item := c.item;
    SaveReplays(w, c);
    if item.sku == sku {
      SavedEntries(w, c);
    } else {
      ClientOwn(w, c);
      OthersUnentered(w.store.ledger, item.movements, sku);
    }
  }

  /** The object of a client is a batch run on the stored item it was loaded from. */
  lemma ClientOwn(w: World, c: Client)
    requires Follows(w.logs, c)
    ensures OwnMovements(c.item)
  {
    hide Perform, RunAll;
    var item := c.item;
    if item.version == 0 {
      RunOwn(Blank(item.sku, item.seller), c.commands);
    } else {
      var log := Log(item.seller, w.logs[item.sku].batches[..item.version]);
      var base := Replay(item.sku, log).value;
      ReplayIsWhole(item.sku, log);
      RunOwn(base, c.commands);
    }
  }

  lemma SavedEntries(w: World, c: Client)
    requires Linear(w) && Follows(w.logs, c) && AfterSave(w.store, c.item).Ok? && Entries(w, c.item.sku)
    ensures var sku := c.item.sku;
      var log := Log(c.item.seller, Batches(w.logs, sku) + [c.commands]);
      && Whole(sku, log).Ok?
      && NoEntryTwice(OfSku(Entered(w.store.ledger, c.item.movements), sku))
      && (NoEntryTwice(Whole(sku, log).value.movements) ==>
          OfSku(Entered(w.store.ledger, c.item.movements), sku) == Whole(sku, log).value.movements)
  {
    hide Perform, RunAll, Referenced, StoreReplays, Replay, Entered;
    var item := c.item;
    var sku := item.sku;
    var batches := Batches(w.logs, sku);
    var log := Log(item.seller, batches);
    var next := Log(item.seller, batches + [c.commands]);
    SaveReplays(w, c);
    WholeBefore(w, c);
    WholeGrows(sku, log, c.commands);
    var h := Whole(sku, log).value;
    assert next.batches[..|batches|] == batches;
    ClientOwn(w, c);
    EnteredOnce(w.store.ledger, item.movements, sku);
    if NoEntryTwice(Whole(sku, next).value.movements) {
      assert Whole(sku, next).value.movements == h.movements + item.movements;
      OnceInFront(h.movements, item.movements);
      AllEntered(w.store.ledger, item.movements, sku);
    }
  }

  lemma WholeBefore(w: World, c: Client)
    requires Linear(w) && Follows(w.logs, c) && c.item.version == |Batches(w.logs, c.item.sku)|
    requires c.item.sku in w.logs ==> w.logs[c.item.sku].seller == c.item.seller
    requires Entries(w, c.item.sku)
    ensures var item := c.item;
      var log := Log(item.seller, Batches(w.logs, item.sku));
      && Whole(item.sku, log).Ok?
      && RunAll(Whole(item.sku, log).value.(movements := [], version := |log.batches|), c.commands) == Ok(item)
      && (NoEntryTwice(Whole(item.sku, log).value.movements)
        ==> OfSku(w.store.ledger, item.sku) == Whole(item.sku, log).value.movements)
  {
    hide Perform, Referenced;
    var item := c.item;
    var log := Log(item.seller, Batches(w.logs, item.sku));
    if item.sku in w.logs {
      assert log == w.logs[item.sku] && log.batches[..|log.batches|] == log.batches;
      ReplayIsWhole(item.sku, log);
    }
  }

  lemma {:induction false} RunsAreEntered(steps: seq<Step>, sku: R.SKU)
    ensures Linear(Run(steps)) && Entries(Run(steps), sku)
  {
    hide Perform, RunAll, Referenced, Linear, Entries;
    RunsAreLinear(steps);
    if steps == [] {
      StartEntries(sku);
    } else {
      var init, last := steps[..|steps| - 1], steps[|steps| - 1];
      RunsAreEntered(init, sku);
      var w := Run(init);
      if last.DoSave? && last.client in w.clients && AfterSave(w.store, w.clients[last.client].item).Ok? {
        SaveEntries(w, last.client, sku);
      } else {
        EntriesStay(w, Run(steps), sku);
      }
    }
  }

  lemma EntriesStay(a: World, b: World, sku: R.SKU)
    requires Entries(a, sku) && a.logs == b.logs && a.store == b.store
    ensures Entries(b, sku)
  {
  }

  /** The ledger holds every movement of a SKU exactly when no two of them share reason and reference. */
  lemma LedgerIsCompleteExactly(steps: seq<Step>, sku: R.SKU)
    requires sku in Run(steps).logs
    ensures var w := Run(steps);
      && Whole(sku, w.logs[sku]).Ok?
      && (OfSku(w.store.ledger, sku) == Whole(sku, w.logs[sku]).value.movements
          <==> NoEntryTwice(Whole(sku, w.logs[sku]).value.movements))
  {
    RunsAreEntered(steps, sku);
  }

  /** When the external references of a SKU are unique for each reason and none for a return is a reservation, then,
      however the clients interleave, the ledger holds every movement of the SKU, and its deltas add up to what is
      available and reserved. */
  lemma LedgerAccounts(steps: seq<Step>, sku: R.SKU)
    requires var w := Run(steps); sku in w.store.items && sku in w.logs && Referenced(Flat(w.logs[sku].batches))
    ensures var w := Run(steps);
      var item := w.store.items[sku];
      Sum(OfSku(w.store.ledger, sku), Delta) == item.available + item.reserved
  {
    hide Run, Perform, RunAll, Referenced;
    var w := Run(steps);
    RunsAreEntered(steps, sku);
    ReplayIsWhole(sku, w.logs[sku]);
    HistoryIsBooked(sku, w.logs[sku].seller, Flat(w.logs[sku].batches));
  }

  // ---------- what the discipline is for ----------

  lemma RunStep(steps: seq<Step>, step: Step)
    ensures Run(steps + [step]) == Next(Run(steps), step)
  {
    assert (steps + [step])[..|steps|] == steps;
  }

  /** A return that is sent twice under one reference is put on sale twice and entered once. */
  lemma RepeatedReturnIsDropped(sku: R.SKU, seller: Reference, reference: Reference, quantity: Quantity)
    returns (steps: seq<Step>)
    requires sku != "" && seller != BLANK && reference != BLANK && 0 < quantity && 2 * quantity <= MAX_QUANTITY
    ensures var w := Run(steps);
      && sku in w.store.items && w.store.items[sku].available == 2 * quantity && w.store.items[sku].reserved == 0
      && Sum(OfSku(w.store.ledger, sku), Delta) == quantity
  {
    var back := DoReturn(reference, quantity);
    var m := Movement(sku, quantity, ForReturn, reference);
    var first := Item(sku, seller, quantity, 0, [], [], 1);
    var second := Item(sku, seller, 2 * quantity, 0, [], [m], 1);
    var once := [DoOpen(0, sku, seller), DoChange(0, back), DoSave(0)];
    var w := Run(once);
    FirstReturn(sku, seller, reference, quantity);
    steps := once + [DoChange(0, back)];
    RunStep(once, DoChange(0, back));
    assert [] + [m] == [m];
    assert Perform(first, back) == Ok(second);
    var changed := Run(steps);
    assert changed.store == w.store && 0 in changed.clients && changed.clients[0].item == second;
    RunStep(steps, DoSave(0));
    steps := steps + [DoSave(0)];
    assert SameEntry(w.store.ledger[0], m);
    assert Entered([m], [m]) == [m];
    OneEntry(m);
  }

  lemma FirstReturn(sku: R.SKU, seller: Reference, reference: Reference, quantity: Quantity)
    requires sku != "" && seller != BLANK && reference != BLANK && 0 < quantity
    ensures var w := Run([DoOpen(0, sku, seller), DoChange(0, DoReturn(reference, quantity)), DoSave(0)]);
      var item := Item(sku, seller, quantity, 0, [], [], 1);
      && w.store == Store(map[sku := item], [Movement(sku, quantity, ForReturn, reference)])
      && 0 in w.clients && w.clients[0].item == item
  {
    var back := DoReturn(reference, quantity);
    var m := Movement(sku, quantity, ForReturn, reference);
    var changed := [DoOpen(0, sku, seller), DoChange(0, back)];
    ReturnLoaded(sku, seller, reference, quantity);
    RunStep(changed, DoSave(0));
    hide Run, Perform;
    assert changed + [DoSave(0)] == [DoOpen(0, sku, seller), DoChange(0, back), DoSave(0)];
    assert [] + [m] == [m];
    assert Entered([], [m]) == [m];
  }

  lemma ReturnLoaded(sku: R.SKU, seller: Reference, reference: Reference, quantity: Quantity)
    requires sku != "" && seller != BLANK && reference != BLANK && 0 < quantity
    ensures var w := Run([DoOpen(0, sku, seller), DoChange(0, DoReturn(reference, quantity))]);
      var m := Movement(sku, quantity, ForReturn, reference);
      w.store == Store(map[], []) && 0 in w.clients && w.clients[0].item == Item(sku, seller, quantity, 0, [], [m], 0)
  {
    var back, open := DoReturn(reference, quantity), [DoOpen(0, sku, seller)];
    var m := Movement(sku, quantity, ForReturn, reference);
    RunStep([], open[0]);
    assert [] + open == open;
    RunStep(open, DoChange(0, back));
    assert open + [DoChange(0, back)] == [DoOpen(0, sku, seller), DoChange(0, back)];
    assert [] + [m] == [m];
  }

  lemma OneEntry(m: Movement)
    ensures OfSku([m], m.sku) == [m] && Sum([m], Delta) == m.delta
  {
    OfSkuAppend([], m, m.sku);
    SumAppend([], m, Delta);
    assert [] + [m] == [m];
  }
}
