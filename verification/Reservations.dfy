/** One reservation seen as a whole: the status of its hold on each of its lines, and what the inventory's
multi-line calls do to it. `StockRuns` proves that the inventory behaves this way. */
module Reservations {
  import opened Kernel

  type SKU = string

  datatype HoldStatus = Held | Committed | Released | Expired | Restored

  type Lines = map<SKU, HoldStatus>

  datatype ReservationError = NotFound | Resolved | NotCommitted

  /** Every line takes the status `target`. */
  function Become(lines: Lines, target: HoldStatus): Lines {
    map sku | sku in lines :: target
  }

  predicate OnlyIn(lines: Lines, a: HoldStatus, b: HoldStatus) {
    forall sku :: sku in lines ==> lines[sku] == a || lines[sku] == b
  }

  /** Commit, release and restore are all-or-nothing: `from` is the status they move on, `target` the one they leave
      alone. */
  function Resolve(lines: Lines, from: HoldStatus, target: HoldStatus,
      refusal: ReservationError): Result<Lines, ReservationError> {
    if lines == map[] then Err(NotFound)
    else if OnlyIn(lines, from, target) then Ok(Become(lines, target))
    else Err(refusal)
  }

  function Commit(lines: Lines): Result<Lines, ReservationError> { Resolve(lines, Held, Committed, Resolved) }
  function Release(lines: Lines): Result<Lines, ReservationError> { Resolve(lines, Held, Released, Resolved) }
  function Restore(lines: Lines): Result<Lines, ReservationError> { Resolve(lines, Committed, Restored, NotCommitted) }

  /** The expiry job reaches the lines of a reservation in batches, so any part of the held ones may expire. */
  function Expire(lines: Lines, due: set<SKU>): Lines {
    map sku | sku in lines :: if sku in due && lines[sku] == Held then Expired else lines[sku]
  }

  /** The lines agree, or are held and partly expired. */
  ghost predicate Uniform(lines: Lines) {
    OnlyIn(lines, Held, Expired) || (forall a, b :: a in lines && b in lines ==> lines[a] == lines[b])
  }

  ghost predicate AllCommitted(lines: Lines) {
    lines != map[] && OnlyIn(lines, Committed, Committed)
  }

  /** No line is committed and, as `DeadStays` shows, none can become committed. */
  ghost predicate Dead(lines: Lines) {
    exists sku :: sku in lines && (lines[sku] == Released || lines[sku] == Expired || lines[sku] == Restored)
  }

  datatype LineCall = DoCommit | DoRelease | DoRestore | DoExpire(due: set<SKU>)

  function After(lines: Lines, call: LineCall): Lines {
    match call
    case DoCommit => (match Commit(lines) case Ok(next) => next case Err(_) => lines)
    case DoRelease => (match Release(lines) case Ok(next) => next case Err(_) => lines)
    case DoRestore => (match Restore(lines) case Ok(next) => next case Err(_) => lines)
    case DoExpire(due) => Expire(lines, due)
  }

  lemma NonEmptyHasKey(lines: Lines) returns (sku: SKU)
    requires lines != map[]
    ensures sku in lines
  {
    assert lines.Keys != {};
    sku :| sku in lines.Keys;
  }

  lemma DeadIsNotCommitted(lines: Lines)
    requires Uniform(lines) && Dead(lines)
    ensures forall sku :: sku in lines ==> lines[sku] != Committed
  {
  }

  lemma BecomeIsUniform(lines: Lines, target: HoldStatus)
    ensures Uniform(Become(lines, target)) && Become(lines, target).Keys == lines.Keys
    ensures lines != map[] && target == Committed ==> AllCommitted(Become(lines, target))
    ensures lines != map[] && (target == Released || target == Restored) ==> Dead(Become(lines, target))
  {
    if lines != map[] {
      var sku := NonEmptyHasKey(lines);
      assert sku in Become(lines, target);
    }
  }

  lemma ExpiryKeepsUniform(lines: Lines, due: set<SKU>)
    requires Uniform(lines)
    ensures Uniform(Expire(lines, due)) && Expire(lines, due).Keys == lines.Keys
    ensures Dead(lines) ==> Dead(Expire(lines, due))
    ensures AllCommitted(lines) ==> Expire(lines, due) == lines
  {
    if Dead(lines) {
      var sku :| sku in lines && (lines[sku] == Released || lines[sku] == Expired || lines[sku] == Restored);
      assert sku in Expire(lines, due);
    }
  }

  lemma ResolutionKeepsUniform(lines: Lines, from: HoldStatus, target: HoldStatus, refusal: ReservationError)
    requires Uniform(lines)
    requires (from == Held && (target == Committed || target == Released)) || (from == Committed && target == Restored)
    ensures var next := Resolve(lines, from, target, refusal);
      next.Ok? ==> next.value == Become(lines, target) && Uniform(next.value) && next.value.Keys == lines.Keys
                   && (Dead(lines) ==> Dead(next.value))
                   && (AllCommitted(lines) ==> target != Released)
                   && (target == Committed ==> AllCommitted(next.value)) && (target == Restored ==> Dead(next.value))
  {
    BecomeIsUniform(lines, target);
    if lines != map[] {
      var sku := NonEmptyHasKey(lines);
    }
  }

  /** Whatever is called on a uniform reservation, in any order: it stays uniform, a dead one stays dead, and one that
      was committed or dead is still one or the other. */
  lemma CallKeepsUniform(lines: Lines, call: LineCall)
    requires Uniform(lines)
    ensures Uniform(After(lines, call)) && After(lines, call).Keys == lines.Keys
    ensures Dead(lines) ==> Dead(After(lines, call))
    ensures AllCommitted(lines) ==> AllCommitted(After(lines, call)) || Dead(After(lines, call))
    ensures AllCommitted(lines) && call != DoRestore ==> AllCommitted(After(lines, call))
  {
    hide Uniform, Dead, AllCommitted, Resolve, Expire;
    match call
    case DoCommit => ResolutionKeepsUniform(lines, Held, Committed, Resolved);
    case DoRelease => ResolutionKeepsUniform(lines, Held, Released, Resolved);
    case DoRestore => ResolutionKeepsUniform(lines, Committed, Restored, NotCommitted);
    case DoExpire(due) => ExpiryKeepsUniform(lines, due);
  }

  lemma {:induction false} DeadStays(lines: Lines, calls: seq<LineCall>)
    requires Uniform(lines) && Dead(lines)
    ensures var end := AfterAll(lines, calls);
      Uniform(end) && Dead(end) && Commit(end) == Err(Resolved) && forall sku :: sku in end ==> end[sku] != Committed
  {
    if calls == [] {
      DeadIsNotCommitted(lines);
      var sku :| sku in lines && (lines[sku] == Released || lines[sku] == Expired || lines[sku] == Restored);
      assert lines != map[];
    } else {
      CallKeepsUniform(lines, calls[0]);
      DeadStays(After(lines, calls[0]), calls[1..]);
    }
  }

  ghost function AfterAll(lines: Lines, calls: seq<LineCall>): Lines {
    if calls == [] then lines else AfterAll(After(lines, calls[0]), calls[1..])
  }

  /** The compensator first releases; when that is refused as resolved, the lines are committed or dead already. */
  lemma RefusedReleaseMeansResolved(lines: Lines)
    requires Uniform(lines) && Release(lines) == Err(Resolved)
    ensures AllCommitted(lines) || Dead(lines)
  {
    var sku :| sku in lines && lines[sku] != Held && lines[sku] != Released;
    if lines[sku] == Committed {
      assert forall other :: other in lines ==> lines[other] == lines[sku];
    }
  }

  /** It then restores. Whatever happened in between, an answer the compensator takes for success leaves the
      reservation dead. */
  lemma RestoreSettles(lines: Lines)
    requires lines != map[] && Uniform(lines) && (AllCommitted(lines) || Dead(lines))
    ensures Restore(lines).Ok? ==> Dead(Restore(lines).value)
    ensures Restore(lines).Err? ==> Restore(lines).error == NotCommitted && Dead(lines)
  {
    BecomeIsUniform(lines, Restored);
  }
}
