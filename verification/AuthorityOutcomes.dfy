/** What an undisturbed call answers, exactly when, and where the code falls short of its promises. */
module AuthorityOutcomes {
  import opened Foundation
  import opened AuthorityTypes
  import opened AuthoritySteps
  import opened AuthorityInvariant
  import opened AuthorityTransactions
  import opened AuthorityCalls
  import opened AuthorityFlights
  import opened AuthorityRuns

  // ---- reserve --------------------------------------------------------------------------------

  /** A reserve call with nothing between its steps, each step reading its own clock. */
  function ReserveWhole(s: System, q: ReserveRequest, now: int, proof: bool, storeNow: int, later: int): Outcome {
    var o := Perform(s, ReserveAtOnce(q, now, proof, storeNow));
    match Request(s, q, now, proof)
    case None => o
    case Some(r) => Complete(o, IdOf(r), later, false)
  }

  /** The state that the ledger gives the binding of a dispatched row. */
  function HeldState(w: World, id: ReservationId): LedgerState
    requires Core(w) && id in w.effects && w.effects[id].status == EffectHold
  {
    assert BridgeOk(w.ledger, w.consumed, w.effects[id]);
    w.ledger[BindingOf(w.effects[id]).jti].state
  }

  /** When a reserve for `r` can be answered, by what is stored under its identifier. */
  predicate Answerable(w: World, r: Reservation)
    requires Core(w)
  {
    var id := IdOf(r);
    if id !in w.effects then !IntentTaken(w.effects, r.intent) && !RequestTaken(w.effects, r.requestId, id)
    else match w.effects[id].status
      case EffectSealed => false
      case EffectConfirmed => Exact(w.ledger, BindingOf(w.effects[id]))
      case EffectHold => HeldState(w, id) == LedgerConsumed || !RequestTaken(w.effects, r.requestId, id)
      case _ => !RequestTaken(w.effects, r.requestId, id)
  }

  /** What it is answered with. */
  function AnsweredStatus(w: World, r: Reservation): EffectStatus
    requires Core(w)
  {
    var id := IdOf(r);
    if id in w.effects
       && (w.effects[id].status == EffectConfirmed
           || (w.effects[id].status == EffectHold && HeldState(w, id) == LedgerConsumed))
    then EffectConfirmed else EffectReserved
  }

  lemma MarkingCompletes(o: Outcome, id: ReservationId, later: int)
    requires id in o.system.flights && o.system.flights[id].Marking?
    ensures var f := o.system.flights[id];
            var step := MarkStep(o.system.world, f.binding, later);
            Complete(o, id, later, false) ==
              if step.Done? then Answer(o.system, step.world, id, f.row) else Fail(o.system, id)
  {
    var u := Advance(o.system, id, later, false);
    assert Complete(u, id, later, false) == u;
  }

  /** The tombstone is settled so, and marked. */
  predicate IsMarked(w: World, b: Binding, state: LedgerState, at: int) {
    b.jti in w.ledger && w.ledger[b.jti] == LedgerRow(b, state, Some(at))
  }

  lemma ExactMarks(w: World, b: Binding, later: int)
    requires Exact(w.ledger, b) && w.ledger[b.jti].state != LedgerPrepared
    ensures MarkStep(w, b, later).Done? && MarkStep(w, b, later).world.effects == w.effects
    ensures w.ledger[b.jti].journalTerminalAt.None? ==>
              IsMarked(MarkStep(w, b, later).world, b, w.ledger[b.jti].state, later)
  {
  }

  /** From a ledger that has cancelled the binding: re-armed, marked and answered, unless the request id is taken. */
  lemma RearmingCompletes(o: Outcome, id: ReservationId, later: int)
    requires Core(o.system.world) && id in o.system.flights && o.system.flights[id].Rearming?
    requires var f := o.system.flights[id];
             && f.mark && Meets(f.replacement, id) && id in o.system.world.effects
             && o.system.world.effects[id].status == EffectHold && f.row == o.system.world.effects[id]
             && Says(o.system.world, BindingOf(f.row), LedgerCancelled)
    ensures var r := o.system.flights[id].replacement;
            var u := Complete(o, id, later, false);
            && (u.answer.Some? <==> !RequestTaken(o.system.world.effects, r.requestId, id))
            && (u.answer.Some? ==>
                  id in u.system.world.effects && u.answer == Some(u.system.world.effects[id])
                  && u.answer.value.status == EffectReserved && u.answer.value == ReservedRow(r)
                  && IsMarked(u.system.world, BindingOf(o.system.flights[id].row), LedgerCancelled, later))
            && (u.answer.None? ==> u.system.world.effects == o.system.world.effects)
  {
    var s := o.system;
    var f := s.flights[id];
    var b := BindingOf(f.row);
    assert EffectOk(s.world.heads, id, s.world.effects[id]);
    SaysExactly(s.world, b, LedgerCancelled);
    var u := Advance(s, id, later, false);
    if RequestTaken(s.world.effects, f.replacement.requestId, id) {
      assert u == Fail(s, id);
      assert Complete(u, id, later, false) == u;
    } else {
      ExactMarks(u.system.world, b, later);
      MarkingCompletes(u, id, later);
    }
  }

  /**
   * A dispatched row that the ledger has consumed is confirmed; any other is reserved anew behind a cancelled
   * tombstone. Either way the tombstone is marked.
   */
  predicate HealedTo(w: World, u: World, id: ReservationId, r: Reservation, later: int)
    requires Core(w) && id in w.effects && w.effects[id].status == EffectHold && id in u.effects
  {
    var b := BindingOf(w.effects[id]);
    if HeldState(w, id) == LedgerConsumed
    then u.effects[id] == w.effects[id].(status := EffectConfirmed) && IsMarked(u, b, LedgerConsumed, later)
    else u.effects[id] == ReservedRow(r) && IsMarked(u, b, LedgerCancelled, later)
  }

  lemma ReconcilingCompletes(o: Outcome, id: ReservationId, later: int)
    requires Core(o.system.world) && id in o.system.flights && o.system.flights[id].Reconciling?
    requires var f := o.system.flights[id];
             && Meets(f.replacement, id) && id in o.system.world.effects
             && o.system.world.effects[id].status == EffectHold && f.row == o.system.world.effects[id]
    ensures var r := o.system.flights[id].replacement;
            var u := Complete(o, id, later, false);
            && (u.answer.Some? <==>
                  HeldState(o.system.world, id) == LedgerConsumed || !RequestTaken(o.system.world.effects, r.requestId, id))
            && (u.answer.Some? ==>
                  id in u.system.world.effects && u.answer == Some(u.system.world.effects[id])
                  && HealedTo(o.system.world, u.system.world, id, r, later))
            && (u.answer.None? ==> u.system.world.effects == o.system.world.effects)
  {
    var s := o.system;
    var row := s.world.effects[id];
    var b := BindingOf(row);
    assert EffectOk(s.world.heads, id, row) && BridgeOk(s.world.ledger, s.world.consumed, row);
    var u := Advance(s, id, later, false);
    match HeldState(s.world, id)
    case LedgerConsumed =>
      var v := Advance(u.system, id, later, false);
      ExactMarks(v.system.world, b, later);
      MarkingCompletes(v, id, later);
    case LedgerPrepared =>
      SettleKeeps(s.world, b, LedgerCancelled);
      RearmingCompletes(Advance(u.system, id, later, false), id, later);
    case LedgerCancelled =>
      RearmingCompletes(u, id, later);
  }

  /** With a sealed row the store refuses to re-arm, whatever the ledger says. */
  lemma SealedCompletes(o: Outcome, id: ReservationId, later: int)
    requires id in o.system.flights && o.answer.None?
    requires id in o.system.world.effects && o.system.world.effects[id].status == EffectSealed
    requires match o.system.flights[id]
             case Reconciling(row, _) => row.status == EffectSealed
             case Cancelling(row, _) => row.status == EffectSealed
             case Rearming(row, _, _) => row.status == EffectSealed
             case _ => false
    ensures var u := Complete(o, id, later, false);
            u.answer.None? && u.system.world.effects == o.system.world.effects
    decreases Rank(o.system.flights[id])
  {
    var u := Advance(o.system, id, later, false);
    if id in u.system.flights {
      SealedCompletes(u, id, later);
    } else {
      assert Complete(u, id, later, false) == u;
    }
  }

  lemma ExpiryFrees(effects: map<ReservationId, EffectRow>, now: int, request: Name, intent: Name, id: ReservationId)
    ensures RequestTaken(ExpireUndispatched(effects, now), request, id) <==> RequestTaken(effects, request, id)
    ensures IntentTaken(ExpireUndispatched(effects, now), intent) <==> IntentTaken(effects, intent)
  {
    var after := ExpireUndispatched(effects, now);
    forall x | x in effects
      ensures after[x].requestId == effects[x].requestId && after[x].intent == effects[x].intent
    {
    }
    if RequestTaken(effects, request, id) {
      var x :| x in effects && x != id && effects[x].requestId == request;
      assert x in after && after[x].requestId == request;
    }
    if IntentTaken(effects, intent) {
      var x :| x in effects && effects[x].intent == intent;
      assert x in after && after[x].intent == intent;
    }
  }

  /** The store transaction of an admitted reserve, by what is stored. */
  lemma StoreReserveMeets(s: System, r: Reservation, now: int)
    requires SystemOk(s) && ValidReservation(r) && NamesCurrent(s.world, r) && IdOf(r) !in s.flights
    ensures var id := IdOf(r);
            var w1 := s.world.(effects := ExpireUndispatched(s.world.effects, now));
            var o := StoreReserve(s, r, now);
            if id in s.world.effects && s.world.effects[id].status in {EffectSealed, EffectHold} then
              && o == Next(s, w1, id, Reconciling(s.world.effects[id], r)) && w1.effects[id] == s.world.effects[id]
            else if id in s.world.effects && s.world.effects[id].status == EffectConfirmed then
              && o == Next(s, w1, id, Marking(BindingOf(s.world.effects[id]), s.world.effects[id]))
              && w1.effects[id] == s.world.effects[id]
            else
              && id !in o.system.flights
              && (o.answer.Some? <==> Answerable(s.world, r))
              && (o.answer.Some? ==>
                    id in o.system.world.effects && o.answer == Some(o.system.world.effects[id])
                    && o.answer.value == ReservedRow(r))
  {
    var id := IdOf(r);
    ExpiryFrees(s.world.effects, now, r.requestId, r.intent, id);
    if id in s.world.effects {
      assert EffectOk(s.world.heads, id, s.world.effects[id]);
    }
  }

  /** An admitted, undisturbed reserve is answered if and only if what is stored under its identifier allows it. */
  lemma ReserveAnswered(s: System, q: ReserveRequest, now: int, proof: bool, storeNow: int, later: int)
    requires SystemOk(s) && Admissible(s.world, q, now, proof)
    requires IdOf(ReservationFor(q, CurrentHead(s.world.heads).value)) !in s.flights
    ensures var r := ReservationFor(q, CurrentHead(s.world.heads).value);
            var o := ReserveWhole(s, q, now, proof, storeNow, later);
            && (o.answer.Some? <==> Answerable(s.world, r))
            && (o.answer.Some? ==>
                  && IdOf(r) in o.system.world.effects && o.answer == Some(o.system.world.effects[IdOf(r)])
                  && o.answer.value.status == AnsweredStatus(s.world, r)
                  && o.answer.value == if o.answer.value.status == EffectConfirmed
                                       then s.world.effects[IdOf(r)].(status := EffectConfirmed) else ReservedRow(r))
  {
    hide StoreReserve, EffectReserveStep, HeadsOk, EffectsOk;
    var r := ReservationFor(q, CurrentHead(s.world.heads).value);
    var id := IdOf(r);
    StoreReserveMeets(s, r, storeNow);
    StoreReserveMoves(s, r, storeNow);
    var o := StoreReserve(s, r, storeNow);
    if id in s.world.effects && s.world.effects[id].status == EffectSealed {
      SealedCompletes(o, id, later);
    } else if id in s.world.effects && s.world.effects[id].status == EffectHold {
      ReconcilingCompletes(o, id, later);
      ExpiryFrees(s.world.effects, storeNow, r.requestId, r.intent, id);
    } else if id in s.world.effects && s.world.effects[id].status == EffectConfirmed {
      assert BridgeOk(s.world.ledger, s.world.consumed, s.world.effects[id]);
      MarkingCompletes(o, id, later);
    } else {
      assert Complete(o, id, later, false) == o;
    }
  }

  /** A live row names the current head when reserves are atomic, so a request for its intent finds exactly this row. */
  lemma LiveIsFound(w: World, q: ReserveRequest, id: ReservationId)
    requires Inv(w) && id in w.effects && Pinned(w.effects[id].status) && q.intent == id.intent
    ensures CurrentHead(w.heads).Some? && IdOf(ReservationFor(q, CurrentHead(w.heads).value)) == id
  {
    InvExclusive(w);
    assert EffectOk(w.heads, id, w.effects[id]);
  }

  /**
   * After any run with atomic reserves, wherever its calls crashed, the next reserve for a dispatched intent
   * answers CONFIRMED if the ledger had consumed it and RESERVED if not. Only a request id that another row
   * holds stops it, and then the row stays dispatched.
   */
  lemma NextReserveHeals(events: seq<Event>, id: ReservationId, q: ReserveRequest, now: int, proof: bool, storeNow: int,
                         later: int)
    requires AtomicReserves(events)
    requires var s := Run(NEW_SYSTEM, events);
             && id in s.world.effects && s.world.effects[id].status == EffectHold && id !in s.flights
             && q.intent == id.intent && Admissible(s.world, q, now, proof)
    ensures var s := Run(NEW_SYSTEM, events);
            && Core(s.world)
            && var o := ReserveWhole(s, q, now, proof, storeNow, later);
               && id in o.system.world.effects
               && (o.answer.Some? <==> HeldState(s.world, id) == LedgerConsumed
                                       || !RequestTaken(s.world.effects, q.requestId, id))
               && (o.answer.Some? ==>
                     && o.answer == Some(o.system.world.effects[id])
                     && HealedTo(s.world, o.system.world, id, ReservationFor(q, CurrentHead(s.world.heads).value), later))
               && (o.answer.None? ==> o.system.world.effects[id] == s.world.effects[id])
  {
    hide StoreReserve, EffectReserveStep, HeadsOk, EffectsOk;
    var s := Run(NEW_SYSTEM, events);
    NewSystemOk();
    AtomicRunKeeps(NEW_SYSTEM, events);
    LiveIsFound(s.world, q, id);
    var r := ReservationFor(q, CurrentHead(s.world.heads).value);
    ReserveAnswered(s, q, now, proof, storeNow, later);
    StoreReserveMeets(s, r, storeNow);
    StoreReserveMoves(s, r, storeNow);
    ReconcilingCompletes(StoreReserve(s, r, storeNow), id, later);
  }

  /** An intent bound under another head is never answered under this one, and the request changes nothing. */
  lemma OldIntentRefused(s: System, q: ReserveRequest, now: int, proof: bool, storeNow: int, later: int, id: ReservationId)
    requires SystemOk(s) && Admissible(s.world, q, now, proof) && id in s.world.effects && id.intent == q.intent
    requires var r := ReservationFor(q, CurrentHead(s.world.heads).value); IdOf(r) != id && IdOf(r) !in s.flights
    ensures ReserveWhole(s, q, now, proof, storeNow, later) == Outcome(s, None)
  {
    var r := ReservationFor(q, CurrentHead(s.world.heads).value);
    assert EffectOk(s.world.heads, id, s.world.effects[id]);
    forall x | x in s.world.effects && x != id ensures x.intent != q.intent {
      assert EffectOk(s.world.heads, x, s.world.effects[x]) && EffectsApart(s.world.effects[id], s.world.effects[x]);
    }
    ExpiryFrees(s.world.effects, storeNow, r.requestId, r.intent, IdOf(r));
    assert s.flights - {IdOf(r)} == s.flights;
    assert StoreReserve(s, r, storeNow) == Outcome(s, None);
  }

  // ---- dispatch and its tombstone -------------------------------------------------------------

  /** A run in which reservation `x` is left to itself. */
  predicate Elsewhere(s: System, events: seq<Event>, x: ReservationId)
    decreases |events|
  {
    events == [] || (Subject(s, events[0]) != Some(x) && Elsewhere(Perform(s, events[0]).system, events[1..], x))
  }

  /** What single steps leave alone, a run leaves alone. */
  lemma {:induction false} ElsewhereFrames(s: System, events: seq<Event>, x: ReservationId)
    requires SystemOk(s) && Elsewhere(s, events, x)
    ensures Frame(s.world, Run(s, events).world, x)
    decreases |events|
  {
    if events == [] {
      SameWorldFrames(s.world, x);
    } else {
      var t := Perform(s, events[0]).system;
      PerformKeeps(s, events[0]);
      assert Frame(s.world, t.world, x);
      ElsewhereFrames(t, events[1..], x);
      FramesCompose(s.world, t.world, Run(t, events[1..]).world, x);
    }
  }

  lemma {:induction false} ElsewhereKeepsFlight(s: System, events: seq<Event>, x: ReservationId)
    requires SystemOk(s) && Elsewhere(s, events, x)
    ensures x in Run(s, events).flights <==> x in s.flights
    ensures x in s.flights ==> Run(s, events).flights[x] == s.flights[x]
    decreases |events|
  {
    if events != [] {
      PerformKeeps(s, events[0]);
      ElsewhereKeepsFlight(Perform(s, events[0]).system, events[1..], x);
    }
  }

  lemma FramesCompose(a: World, b: World, c: World, x: ReservationId)
    requires Frame(a, b, x) && Frame(b, c, x)
    ensures Frame(a, c, x)
  {
    forall j | j in a.ledger && a.ledger[j].binding.reservation == x && a.ledger[j].journalTerminalAt.None?
      ensures j in c.ledger && c.ledger[j] == a.ledger[j]
    {
      assert b.ledger[j] == a.ledger[j];
    }
  }

  /**
   * After the ledger is prepared, the row is dispatched if and only if it is still sealed and its time has
   * not passed. Otherwise it ends expired, and its tombstone stays PREPARED through every run that does not
   * call on this reservation again: no pruning takes it.
   */
  lemma DispatchDecided(s: System, id: ReservationId, now: int, events: seq<Event>)
    requires SystemOk(s) && id in s.flights && s.flights[id].Dispatching?
    ensures id in s.world.effects
    ensures var o := Advance(s, id, now, false);
            var b := BindingOf(s.flights[id].row);
            && SystemOk(o.system) && id in o.system.world.effects
            && (o.system.world.effects[id].status == EffectHold <==>
                  s.world.effects[id].status == EffectSealed && now <= s.world.effects[id].expiresAt)
            && (o.answer.Some? <==> o.system.world.effects[id].status == EffectHold)
            && (o.answer.None? ==>
                  && o.system.world.effects[id].status == EffectExpired
                  && (Elsewhere(o.system, events, id) ==>
                        && Says(Run(o.system, events).world, b, LedgerPrepared)
                        && id in Run(o.system, events).world.effects
                        && Run(o.system, events).world.effects[id] == o.system.world.effects[id]))
  {
    hide Core, Frame;
    var row := s.flights[id].row;
    assert FlightOk(s.world, id, s.flights[id]);
    DispatchMoves(s, id, row, now);
    var t := Advance(s, id, now, false).system;
    MovedKeeps(s, t, id);
    if Elsewhere(t, events, id) {
      ElsewhereFrames(t, events, id);
      TombstoneStays(t.world, Run(t, events).world, id, BindingOf(row));
    }
  }

  lemma TombstoneStays(w: World, u: World, id: ReservationId, b: Binding)
    requires Frame(w, u, id) && b.reservation == id && Says(w, b, LedgerPrepared)
    ensures Says(u, b, LedgerPrepared)
    ensures id in w.effects && w.effects[id].status == EffectExpired ==> id in u.effects && u.effects[id] == w.effects[id]
  {
  }

  // ---- the bare store call --------------------------------------------------------------------

  /** The reserve transaction re-arms an undispatched row it already has, without asking about heads. */
  predicate Rearms(w: World, r: Reservation) {
    && IdOf(r) in w.effects
    && w.effects[IdOf(r)].status in {EffectReserved, EffectExpired, EffectCancelled}
  }

  /**
   * The store's reserve keeps heads and effects apart exactly when it inserts, leaves the row alone, or
   * re-arms a row of the current head with no head pending. This is what a call meets after its wait.
   */
  lemma StoreReserveNeedsCurrent(w: World, r: Reservation, now: int)
    requires Inv(w) && EffectReserveStep(w, r, now).Done?
    ensures Exclusive(EffectReserveStep(w, r, now).world) <==> !Rearms(w, r) || NamesCurrent(w, r)
  {
    hide Exclusive;
    var u := EffectReserveStep(w, r, now).world;
    EffectReserveKeeps(w, r, now);
    if NamesCurrent(w, r) {
      InvExclusive(u);
    } else if Rearms(w, r) {
      RearmedIsStray(w, r, now);
    } else {
      UnarmedKeepsPins(w, r, now);
      InvExclusive(u);
    }
  }

  lemma RearmedIsStray(w: World, r: Reservation, now: int)
    requires Inv(w) && EffectReserveStep(w, r, now).Done? && Rearms(w, r) && !NamesCurrent(w, r)
    ensures !Exclusive(EffectReserveStep(w, r, now).world)
  {
    var u := EffectReserveStep(w, r, now).world;
    assert IdOf(r) in u.effects && u.effects[IdOf(r)].status == EffectReserved;
    assert u.effects[IdOf(r)].head == r.head && u.heads == w.heads;
    assert HasNonterminalEffect(u.effects);
  }

  lemma UnarmedKeepsPins(w: World, r: Reservation, now: int)
    requires Inv(w) && EffectReserveStep(w, r, now).Done? && !Rearms(w, r) && !NamesCurrent(w, r)
    ensures PinsOk(EffectReserveStep(w, r, now).world)
  {
    LapseKeeps(w, ExpireUndispatched(w.effects, now));
  }
}
