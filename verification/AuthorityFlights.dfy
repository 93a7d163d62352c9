/** What a call in flight may rely on at every wait, and that nobody else can take it away. */
module AuthorityFlights {
  import opened Foundation
  import opened AuthorityTypes
  import opened AuthoritySteps
  import opened AuthorityInvariant
  import opened AuthorityCalls

  // ---- what others leave alone ----------------------------------------------------------------

  predicate RowFrame(a: EffectRow, b: EffectRow) {
    b == a || (a.status in {EffectReserved, EffectSealed} && b == Lapse(a))
  }

  /**
   * Steps that are not calls on reservation `x` may expire its row if it was never dispatched, and may
   * prune its tombstones once they are marked; nothing else of `x` changes.
   */
  predicate Frame(w: World, u: World, x: ReservationId) {
    && w.consumed <= u.consumed
    && (x in u.effects <==> x in w.effects)
    && (x in w.effects ==> RowFrame(w.effects[x], u.effects[x]))
    && (forall j {:trigger u.ledger[j]} {:trigger w.ledger[j]} ::
          j in w.ledger && w.ledger[j].binding.reservation == x && w.ledger[j].journalTerminalAt.None? ==>
            j in u.ledger && u.ledger[j] == w.ledger[j])
  }

  /** The row that the call read is still there, unless it has expired undispatched. */
  predicate Snapshot(w: World, id: ReservationId, row: EffectRow) {
    IdOf(row.reservation) == id && id in w.effects && RowFrame(row, w.effects[id])
  }

  predicate Meets(r: Reservation, id: ReservationId) {
    IdOf(r) == id && ValidReservation(r)
  }

  predicate FlightOk(w: World, id: ReservationId, f: Flight) {
    match f
    case Reserving(r) => Meets(r, id)
    case Reconciling(row, r) => Snapshot(w, id, row) && row.status in {EffectSealed, EffectHold} && Meets(r, id)
    case Cancelling(row, r) => Snapshot(w, id, row) && row.status in {EffectSealed, EffectHold} && Meets(r, id)
    case Rearming(row, r, mark) =>
      && Snapshot(w, id, row) && row.status in {EffectSealed, EffectHold} && Meets(r, id)
      && (row.status == EffectHold ==> mark && Says(w, BindingOf(row), LedgerCancelled))
    case Healing(row) =>
      Snapshot(w, id, row) && row.status == EffectHold && row.result.Some? && Says(w, BindingOf(row), LedgerConsumed)
    case Preparing(row) => Snapshot(w, id, row) && row.status == EffectSealed
    case Dispatching(row) =>
      Snapshot(w, id, row) && row.status == EffectSealed && Says(w, BindingOf(row), LedgerPrepared)
    case Committing(row, _) => Snapshot(w, id, row) && row.status in {EffectHold, EffectConfirmed}
    case Confirming(row, _) =>
      && Snapshot(w, id, row) && row.status in {EffectHold, EffectConfirmed}
      && BindingOf(row) in w.consumed
      && (row.status == EffectHold ==> Says(w, BindingOf(row), LedgerConsumed))
    case Marking(b, _) => b.reservation == id && id in w.effects && w.effects[id].status != EffectHold
  }

  predicate FlightsOk(w: World, flights: map<ReservationId, Flight>) {
    forall id {:trigger FlightOk(w, id, flights[id])} :: id in flights ==> FlightOk(w, id, flights[id])
  }

  predicate SystemOk(s: System) {
    Core(s.world) && FlightsOk(s.world, s.flights)
  }

  lemma FlightFollows(w: World, u: World, id: ReservationId, f: Flight)
    requires Frame(w, u, id) && FlightOk(w, id, f)
    ensures FlightOk(u, id, f)
  {
  }

  // ---- one step of one call -------------------------------------------------------------------

  /** A step of the call on `id`: the others are framed, and `id` may go on with its call. */
  ghost predicate Moved(s: System, t: System, id: ReservationId) {
    && Core(t.world)
    && (forall x {:trigger Frame(s.world, t.world, x)} :: x != id ==> Frame(s.world, t.world, x))
    && t.flights - {id} == s.flights - {id}
    && (id in t.flights ==> FlightOk(t.world, id, t.flights[id]))
  }

  lemma MovedKeeps(s: System, t: System, id: ReservationId)
    requires SystemOk(s) && Moved(s, t, id)
    ensures SystemOk(t)
  {
    forall x | x in t.flights ensures FlightOk(t.world, x, t.flights[x]) {
      if x != id {
        assert x in t.flights - {id};
        assert FlightOk(s.world, x, s.flights[x]);
        FlightFollows(s.world, t.world, x, s.flights[x]);
      }
    }
  }

  lemma SameWorldFrames(w: World, x: ReservationId)
    ensures Frame(w, w, x)
  {
  }

  lemma FailMoves(s: System, id: ReservationId)
    requires SystemOk(s)
    ensures Moved(s, Fail(s, id).system, id)
  {
    forall x ensures Frame(s.world, s.world, x) {
      SameWorldFrames(s.world, x);
    }
  }

  lemma NextMoves(s: System, u: World, id: ReservationId, f: Flight)
    requires Core(u) && FlightOk(u, id, f)
    requires forall x {:trigger Frame(s.world, u, x)} :: x != id ==> Frame(s.world, u, x)
    ensures Moved(s, Next(s, u, id, f).system, id)
  {
    hide Core, Frame, FlightOk;
  }

  lemma StayMoves(s: System, id: ReservationId)
    requires SystemOk(s)
    ensures Moved(s, s, id)
  {
    forall x ensures Frame(s.world, s.world, x) {
      SameWorldFrames(s.world, x);
    }
    assert id in s.flights ==> FlightOk(s.world, id, s.flights[id]);
  }

  /** Rewriting the row of `id` frames every other reservation. */
  lemma PutFrames(w: World, id: ReservationId, row: EffectRow, x: ReservationId)
    requires x != id
    ensures Frame(w, w.(effects := w.effects[id := row]), x)
  {
  }

  /** Rewriting a tombstone of `id` frames every other reservation. */
  lemma TombstoneFrames(w: World, b: Binding, row: LedgerRow, consumed: set<Binding>, x: ReservationId)
    requires b.jti in w.ledger && w.ledger[b.jti].binding == b && b.reservation != x && w.consumed <= consumed
    ensures Frame(w, w.(ledger := w.ledger[b.jti := row], consumed := consumed), x)
  {
  }

  /** Pruning and inserting a tombstone of `id` frames every other reservation. */
  lemma PrepareFrames(w: World, b: Binding, now: int, taken: bool, x: ReservationId)
    requires Core(w) && PrepareStep(w, b, now, taken).Done? && b.reservation != x
    ensures Frame(w, PrepareStep(w, b, now, taken).world, x)
  {
    var u := PrepareStep(w, b, now, taken).world;
    forall j | j in w.ledger && w.ledger[j].binding.reservation == x && w.ledger[j].journalTerminalAt.None?
      ensures j in u.ledger && u.ledger[j] == w.ledger[j]
    {
      assert LedgerRowOk(w.ledger, j);
      assert j in Prune(w.ledger, now);
    }
  }

  /** Expiry frames every reservation. */
  lemma LapseFrames(w: World, effects: map<ReservationId, EffectRow>, x: ReservationId)
    requires Lapsed(w.effects, effects)
    ensures Frame(w, w.(effects := effects), x)
  {
  }

  lemma StoreReserveFrames(w: World, r: Reservation, now: int, x: ReservationId)
    requires EffectReserveStep(w, r, now).Done? && x != IdOf(r)
    ensures Frame(w, EffectReserveStep(w, r, now).world, x)
  {
  }

  // ---- reserve and reconcile ------------------------------------------------------------------

  lemma StoreReserveMoves(s: System, r: Reservation, now: int)
    requires SystemOk(s) && ValidReservation(r)
    ensures Moved(s, StoreReserve(s, r, now).system, IdOf(r))
    ensures PinsOk(s.world) && NamesCurrent(s.world, r) ==> PinsOk(StoreReserve(s, r, now).system.world)
  {
    hide LedgerOk, HeadsOk;
    var id := IdOf(r);
    FailMoves(s, id);
    if EffectReserveStep(s.world, r, now).Done? {
      var w := EffectReserveStep(s.world, r, now).world;
      EffectReserveKeeps(s.world, r, now);
      forall x | x != id ensures Frame(s.world, w, x) {
        StoreReserveFrames(s.world, r, now, x);
      }
      assert EffectOk(w.heads, id, w.effects[id]);
    }
  }

  lemma ObserveMoves(s: System, id: ReservationId, row: EffectRow, r: Reservation)
    requires SystemOk(s) && FlightOk(s.world, id, Reconciling(row, r))
    ensures Moved(s, AfterObserve(s, id, row, r).system, id)
  {
    hide LedgerOk, HeadsOk;
    FailMoves(s, id);
    if row.status == EffectHold {
      assert BridgeOk(s.world.ledger, s.world.consumed, s.world.effects[id]);
    }
  }

  lemma SettleMoves(s: System, id: ReservationId, b: Binding, to: LedgerState)
    requires SystemOk(s) && b.reservation == id && to != LedgerPrepared && SettleStep(s.world, b, to).Done?
    ensures var u := SettleStep(s.world, b, to).world;
            && Core(u) && u.effects == s.world.effects && u.heads == s.world.heads
            && Exact(u.ledger, b) && u.ledger[b.jti].state == to
            && (forall x :: x != id ==> Frame(s.world, u, x))
            && (s.world.ledger[b.jti].journalTerminalAt.None? ==> Says(u, b, to))
            && (to == LedgerConsumed ==> b in u.consumed)
  {
    SettleKeeps(s.world, b, to);
    var u := SettleStep(s.world, b, to).world;
    assert LedgerRowOk(s.world.ledger, b.jti);
    forall x | x != id ensures Frame(s.world, u, x) {
      if u == s.world {
        SameWorldFrames(u, x);
      } else {
        TombstoneFrames(s.world, b, u.ledger[b.jti], u.consumed, x);
      }
    }
  }

  lemma CancelMoves(s: System, id: ReservationId, row: EffectRow, r: Reservation)
    requires SystemOk(s) && FlightOk(s.world, id, Cancelling(row, r))
    ensures Moved(s, Proceed(s, id, SettleStep(s.world, BindingOf(row), LedgerCancelled), Rearming(row, r, true)).system, id)
  {
    FailMoves(s, id);
    var b := BindingOf(row);
    if SettleStep(s.world, b, LedgerCancelled).Done? {
      SettleMoves(s, id, b, LedgerCancelled);
      if row.status == EffectHold {
        assert BridgeOk(s.world.ledger, s.world.consumed, s.world.effects[id]);
      }
    }
  }

  lemma RearmMoves(s: System, id: ReservationId, row: EffectRow, r: Reservation, mark: bool)
    requires SystemOk(s) && FlightOk(s.world, id, Rearming(row, r, mark))
    ensures Moved(s, AfterRearm(s, id, row, r, mark).system, id)
    ensures PinsOk(s.world) ==> PinsOk(AfterRearm(s, id, row, r, mark).system.world)
  {
    FailMoves(s, id);
    if RearmStep(s.world, id, r).Done? {
      RearmKeeps(s.world, id, r);
      var w := RearmStep(s.world, id, r).world;
      forall x | x != id ensures Frame(s.world, w, x) {
        PutFrames(s.world, id, w.effects[id], x);
      }
    }
  }

  lemma ConfirmMoves(s: System, id: ReservationId, row: EffectRow, result: Name)
    requires SystemOk(s) && Snapshot(s.world, id, row) && row.status in {EffectHold, EffectConfirmed}
    requires row.status == EffectHold ==> Says(s.world, BindingOf(row), LedgerConsumed)
    ensures Moved(s, AfterConfirm(s, id, row, result).system, id)
    ensures PinsOk(s.world) ==> PinsOk(AfterConfirm(s, id, row, result).system.world)
  {
    FailMoves(s, id);
    if ConfirmStep(s.world, id, result).Done? {
      ConfirmKeeps(s.world, id, result);
      var w := ConfirmStep(s.world, id, result).world;
      forall x | x != id ensures Frame(s.world, w, x) {
        PutFrames(s.world, id, w.effects[id], x);
        assert w.effects == s.world.effects[id := w.effects[id]];
      }
    }
  }

  lemma MarkMoves(s: System, id: ReservationId, b: Binding, row: EffectRow, now: int)
    requires SystemOk(s) && FlightOk(s.world, id, Marking(b, row)) && MarkStep(s.world, b, now).Done?
    ensures Moved(s, Answer(s, MarkStep(s.world, b, now).world, id, row).system, id)
  {
    forall x | x in s.world.effects && s.world.effects[x].status == EffectHold
      ensures BindingOf(s.world.effects[x]) != b
    {
      assert EffectOk(s.world.heads, x, s.world.effects[x]);
    }
    MarkKeeps(s.world, b, now);
    var u := MarkStep(s.world, b, now).world;
    forall x | x != id ensures Frame(s.world, u, x) {
      if u == s.world {
        SameWorldFrames(u, x);
      } else {
        TombstoneFrames(s.world, b, u.ledger[b.jti], u.consumed, x);
      }
    }
  }

  // ---- dispatch and commit --------------------------------------------------------------------

  /** Bindings carry their reservation, so no confirmed effect uses the one of a row not yet dispatched. */
  lemma UnconfirmedBinding(w: World, id: ReservationId, row: EffectRow)
    requires Core(w) && Snapshot(w, id, row) && row.status == EffectSealed
    ensures forall x :: x in w.effects && w.effects[x].status == EffectConfirmed ==> BindingOf(w.effects[x]) != BindingOf(row)
  {
    forall x | x in w.effects && w.effects[x].status == EffectConfirmed
      ensures BindingOf(w.effects[x]) != BindingOf(row)
    {
      assert EffectOk(w.heads, x, w.effects[x]);
    }
  }

  lemma PrepareMoves(s: System, id: ReservationId, row: EffectRow, now: int, taken: bool)
    requires SystemOk(s) && FlightOk(s.world, id, Preparing(row))
    ensures Moved(s, Proceed(s, id, PrepareStep(s.world, BindingOf(row), now, taken), Dispatching(row)).system, id)
  {
    FailMoves(s, id);
    var b := BindingOf(row);
    UnconfirmedBinding(s.world, id, row);
    hide PrepareStep, Core, Frame, Says, Moved, RowFrame;
    if PrepareStep(s.world, b, now, taken).Done? {
      PrepareKeeps(s.world, b, now, taken);
      var u := PrepareStep(s.world, b, now, taken).world;
      forall x | x != id ensures Frame(s.world, u, x) {
        PrepareFrames(s.world, b, now, taken, x);
      }
      NextMoves(s, u, id, Dispatching(row));
    }
  }

  lemma DispatchMoves(s: System, id: ReservationId, row: EffectRow, now: int)
    requires SystemOk(s) && FlightOk(s.world, id, Dispatching(row))
    ensures Moved(s, AfterDispatch(s, id, now).system, id)
    ensures PinsOk(s.world) ==> PinsOk(AfterDispatch(s, id, now).system.world)
  {
    hide LedgerOk, HeadsOk;
    FailMoves(s, id);
    DispatchKeeps(s.world, id, now);
    var w := DispatchStep(s.world, id, now).world;
    forall x | x != id ensures Frame(s.world, w, x) {
      PutFrames(s.world, id, w.effects[id], x);
      assert w.effects == s.world.effects[id := w.effects[id]];
    }
  }

  lemma CommitMoves(s: System, id: ReservationId, row: EffectRow, result: Name)
    requires SystemOk(s) && FlightOk(s.world, id, Committing(row, result))
    ensures Moved(s, Proceed(s, id, SettleStep(s.world, BindingOf(row), LedgerConsumed), Confirming(row, result)).system, id)
  {
    FailMoves(s, id);
    var b := BindingOf(row);
    if SettleStep(s.world, b, LedgerConsumed).Done? {
      SettleMoves(s, id, b, LedgerConsumed);
      if row.status == EffectHold {
        assert BridgeOk(s.world.ledger, s.world.consumed, s.world.effects[id]);
      }
    }
  }

  /** Every step of a call in flight keeps the system coherent and frames all other reservations. */
  lemma AdvanceMoves(s: System, id: ReservationId, now: int, taken: bool)
    requires SystemOk(s)
    ensures Moved(s, Advance(s, id, now, taken).system, id)
    ensures PinsOk(s.world) && (id in s.flights ==> !s.flights[id].Reserving?) ==>
              PinsOk(Advance(s, id, now, taken).system.world)
  {
    hide Core, Moved, PinsOk;
    if id !in s.flights {
      StayMoves(s, id);
    } else {
      FailMoves(s, id);
      var f := s.flights[id];
      assert FlightOk(s.world, id, f);
      match f
      case Reserving(r) => StoreReserveMoves(s, r, now);
      case Reconciling(row, r) => ObserveMoves(s, id, row, r);
      case Cancelling(row, r) => CancelMoves(s, id, row, r); LedgerLeavesPins(s, id, now, taken);
      case Rearming(row, r, mark) => RearmMoves(s, id, row, r, mark);
      case Healing(row) => ConfirmMoves(s, id, row, row.result.value);
      case Preparing(row) => PrepareMoves(s, id, row, now, taken); LedgerLeavesPins(s, id, now, taken);
      case Dispatching(row) => DispatchMoves(s, id, row, now);
      case Committing(row, result) => CommitMoves(s, id, row, result); LedgerLeavesPins(s, id, now, taken);
      case Confirming(row, result) => ConfirmMoves(s, id, row, result);
      case Marking(b, row) =>
        if MarkStep(s.world, b, now).Done? {
          MarkMoves(s, id, b, row, now);
        }
        LedgerLeavesPins(s, id, now, taken);
    }
  }

  lemma LedgerLeavesPins(s: System, id: ReservationId, now: int, taken: bool)
    requires id in s.flights
    requires match s.flights[id]
             case Cancelling(_, _) => true case Preparing(_) => true
             case Committing(_, _) => true case Marking(_, _) => true
             case _ => false
    ensures PinsOk(s.world) ==> PinsOk(Advance(s, id, now, taken).system.world)
  {
    var u := Advance(s, id, now, taken).system.world;
    assert u.heads == s.world.heads && u.effects == s.world.effects;
    if PinsOk(s.world) {
      forall x | x in u.effects ensures PinOk(u.heads, u.effects[x]) {
        assert PinOk(s.world.heads, s.world.effects[x]);
      }
    }
  }
}
