/** Calls on a reservation that already exists, from their first step to their answer, with nothing between. */
module AuthorityAnswers {
  import opened Foundation
  import opened Clock
  import opened AuthorityTypes
  import opened AuthoritySteps
  import opened AuthorityInvariant
  import opened AuthorityCalls
  import opened AuthorityFlights
  import opened AuthorityRuns
  import opened AuthorityOutcomes
  import AuthorityTransactions

  // ---- who may call ---------------------------------------------------------------------------

  /** Made within the last minute, or dated at most thirty seconds ahead of this clock. */
  predicate Recent(requestedAt: int, now: int) {
    now <= requestedAt + 60_000 && requestedAt <= now + 30_000
  }

  /** The reservation that a request asks for under the head that is current. */
  function Asked(q: ReserveRequest, head: HeadRow): Reservation {
    Reservation(createdAt := q.requestedAt, expiresAt := q.expiresAt,
                head := HeadRef(head.generation, head.head, head.head), intent := q.intent, replay := q.replay,
                requestId := q.requestId)
  }

  /** The head is confirmed, proved and the one that the request names; the request is recent and good for a minute. */
  predicate Admits(w: World, q: ReserveRequest, now: int, proof: bool) {
    && Recent(q.requestedAt, now) && now <= q.expiresAt && proof
    && IsStamp(q.requestedAt) && IsStamp(q.expiresAt) && q.requestedAt < q.expiresAt <= q.requestedAt + 60_000
    && 1 <= q.replay.expiresAt
    && w.heads != [] && w.heads[|w.heads| - 1].mirror == MirrorConfirmed
    && var head := w.heads[|w.heads| - 1];
       && head.activatedId == q.activatedId && head.activatedSha == q.activatedSha
       && head.authorities == q.authorities && head.ingress == q.ingress
  }

  lemma AdmitsIsAdmissible(w: World, q: ReserveRequest, now: int, proof: bool)
    requires Core(w)
    ensures Admissible(w, q, now, proof) <==> Admits(w, q, now, proof)
    ensures Admits(w, q, now, proof) ==>
              CurrentHead(w.heads).Some? && ReservationFor(q, CurrentHead(w.heads).value) == Asked(q, w.heads[|w.heads| - 1])
  {
    PendingIsLast(w.heads);
    if w.heads != [] {
      assert HeadOk(w.heads, |w.heads| - 1);
    }
    if AuthorityTransactions.Settled(w.heads) {
      CurrentWhenSettled(w.heads);
    }
  }

  /** A reserve call sets out exactly when it is admitted and no call on its reservation is in flight. */
  lemma StartDecided(s: System, q: ReserveRequest, now: int, proof: bool)
    requires SystemOk(s)
    ensures Perform(s, StartReserve(q, now, proof)) ==
              if Admits(s.world, q, now, proof) && IdOf(Asked(q, s.world.heads[|s.world.heads| - 1])) !in s.flights
              then
                var r := Asked(q, s.world.heads[|s.world.heads| - 1]);
                Outcome(s.(flights := s.flights[ReservationId(r.head, r.intent) := Reserving(r)]), None)
              else Outcome(s, None)
  {
    AdmitsIsAdmissible(s.world, q, now, proof);
  }

  /** The row is stored under this request, the request is recent, and no call on it is in flight. */
  predicate MayCall(s: System, id: ReservationId, requestId: Name, requestedAt: int, now: int) {
    id !in s.flights && Recent(requestedAt, now) && id in s.world.effects && s.world.effects[id].requestId == requestId
  }

  /** How the other calls on a reservation set out, and that they do nothing otherwise. */
  lemma CallDecided(s: System, id: ReservationId, requestId: Name, requestedAt: int, result: Name, now: int)
    ensures Callable(s, id, requestId, requestedAt, now) <==> MayCall(s, id, requestId, requestedAt, now)
    ensures !MayCall(s, id, requestId, requestedAt, now) ==>
              && Perform(s, StartDispatch(id, requestId, requestedAt, now)) == Outcome(s, None)
              && Perform(s, StartConfirm(id, requestId, requestedAt, result, now)) == Outcome(s, None)
              && Perform(s, Seal(id, requestId, requestedAt, result, now)) == Outcome(s, None)
              && Perform(s, Cancel(id, requestId, requestedAt, now)) == Outcome(s, None)
    ensures MayCall(s, id, requestId, requestedAt, now) ==>
              var row := s.world.effects[id];
              var sealed := SealStep(s.world, id, result);
              var cancelled := CancelStep(s.world, id);
              && Perform(s, StartDispatch(id, requestId, requestedAt, now)) ==
                   (match row.status
                    case EffectHold => Outcome(s, Some(row))
                    case EffectConfirmed => Outcome(s, Some(row))
                    case EffectSealed => Outcome(s.(flights := s.flights[id := Preparing(row)]), None)
                    case _ => Outcome(s, None))
              && Perform(s, StartConfirm(id, requestId, requestedAt, result, now)) ==
                   (if row.status in {EffectHold, EffectConfirmed}
                    then Outcome(s.(flights := s.flights[id := Committing(row, result)]), None) else Outcome(s, None))
              && Perform(s, Seal(id, requestId, requestedAt, result, now)) ==
                   Outcome(if sealed.Done? then s.(world := sealed.world) else s, None)
              && Perform(s, Cancel(id, requestId, requestedAt, now)) ==
                   Outcome(if cancelled.Done? then s.(world := cancelled.world) else s, None)
  {
  }

  // ---- confirm --------------------------------------------------------------------------------

  function ConfirmWhole(s: System, id: ReservationId, requestId: Name, requestedAt: int, result: Name, now: int,
                        later: int): Outcome {
    Complete(Perform(s, StartConfirm(id, requestId, requestedAt, result, now)), id, later, false)
  }

  predicate WasDispatched(status: EffectStatus) {
    status == EffectHold || status == EffectConfirmed
  }

  /** The tombstone of the binding is there, alone on its token and request, and was not cancelled. */
  predicate Committable(w: World, b: Binding) {
    AuthorityTransactions.Holds(w, b) && w.ledger[b.jti].state != LedgerCancelled
  }

  /** The tombstone after it was consumed; a mark once set keeps its time. */
  function Spent(row: LedgerRow, b: Binding, mark: Option<int>): LedgerRow {
    LedgerRow(b, LedgerConsumed, if row.journalTerminalAt.Some? then row.journalTerminalAt else mark)
  }

  /** The world with the effect confirmed, its binding consumed and its tombstone marked at `later`. */
  predicate IsConfirmed(w: World, u: World, id: ReservationId, later: int)
    requires id in w.effects && BindingOf(w.effects[id]).jti in w.ledger
  {
    var b := BindingOf(w.effects[id]);
    && u.heads == w.heads
    && u.effects == w.effects[id := w.effects[id].(status := EffectConfirmed)]
    && u.ledger == w.ledger[b.jti := Spent(w.ledger[b.jti], b, Some(later))]
    && u.consumed == w.consumed + {b}
  }

  /**
   * An undisturbed confirm is answered if and only if the row was dispatched with exactly this result and its
   * tombstone is there and not cancelled. A wrong result is noticed only after the ledger has been consumed.
   */
  lemma ConfirmAnswered(s: System, id: ReservationId, requestId: Name, requestedAt: int, result: Name, now: int, later: int)
    requires SystemOk(s) && Callable(s, id, requestId, requestedAt, now)
    ensures var o := ConfirmWhole(s, id, requestId, requestedAt, result, now, later);
            var row := s.world.effects[id];
            var b := BindingOf(row);
            && (o.answer.Some? <==> WasDispatched(row.status) && row.result == Some(result) && Committable(s.world, b))
            && o.system.flights == s.flights
            && (o.answer.Some? ==>
                  && o.answer.value == row.(status := EffectConfirmed)
                  && IsConfirmed(s.world, o.system.world, id, later))
            && (o.answer.None? ==>
                  o.system.world == if WasDispatched(row.status) && Committable(s.world, b)
                                    then s.world.(ledger := s.world.ledger[b.jti := Spent(s.world.ledger[b.jti], b, None)],
                                                  consumed := s.world.consumed + {b})
                                    else s.world)
  {
    hide Core;
    var o := Perform(s, StartConfirm(id, requestId, requestedAt, result, now));
    var row := s.world.effects[id];
    if WasDispatched(row.status) {
      BridgeOf(s.world, id);
      var b := BindingOf(row);
      assert Committable(s.world, b) <==> SettleStep(s.world, b, LedgerConsumed).Done?;
      var o1 := Advance(o.system, id, later, false);
      assert s.flights[id := Committing(row, result)] - {id} == s.flights;
      if Committable(s.world, b) {
        ConfirmingCompletes(s, o1, id, row, result, later);
      } else {
        assert Complete(o1, id, later, false) == o1;
      }
    } else {
      assert Complete(o, id, later, false) == o;
    }
  }

  lemma BridgeOf(w: World, id: ReservationId)
    requires Core(w) && id in w.effects
    ensures BridgeOk(w.ledger, w.consumed, w.effects[id]) && LedgerOk(w.ledger, w.consumed)
    ensures w.effects[id].result.Some? <==> HasResult(w.effects[id].status)
  {
    assert EffectOk(w.heads, id, w.effects[id]);
  }

  /** From the consumed tombstone: the row is confirmed and the tombstone marked. */
  lemma MarkConfirmed(s: System, w: World, id: ReservationId, row: EffectRow, result: Name, later: int)
    requires id in s.world.effects && s.world.effects[id] == row && WasDispatched(row.status) && id !in s.flights
    requires row.result == Some(result) && Committable(s.world, BindingOf(row))
    requires var b := BindingOf(row);
             w == s.world.(ledger := s.world.ledger[b.jti := Spent(s.world.ledger[b.jti], b, None)],
                           consumed := s.world.consumed + {b})
    ensures var o1 := Advance(System(w, s.flights[id := Confirming(row, result)]), id, later, false);
            var u := Complete(o1, id, later, false);
            && u.answer == Some(row.(status := EffectConfirmed)) && u.system.flights == s.flights
            && IsConfirmed(s.world, u.system.world, id, later)
  {
    var b := BindingOf(row);
    var o1 := Advance(System(w, s.flights[id := Confirming(row, result)]), id, later, false);
    var done := row.(status := EffectConfirmed);
    assert o1.system.world == w.(effects := w.effects[id := done]);
    assert o1.system.flights == s.flights[id := Marking(b, done)];
    assert Exact(w.ledger, b);
    MarkingCompletes(o1, id, later);
    assert o1.system.flights - {id} == s.flights;
  }

  lemma ConfirmingCompletes(s: System, o: Outcome, id: ReservationId, row: EffectRow, result: Name, later: int)
    requires id in s.world.effects && s.world.effects[id] == row && WasDispatched(row.status) && id !in s.flights
    requires BridgeOk(s.world.ledger, s.world.consumed, row) && LedgerOk(s.world.ledger, s.world.consumed)
    requires Committable(s.world, BindingOf(row)) && o.answer.None?
    requires o == Proceed(s.(flights := s.flights[id := Committing(row, result)]), id,
                          SettleStep(s.world, BindingOf(row), LedgerConsumed), Confirming(row, result))
    ensures var b := BindingOf(row);
            var u := Complete(o, id, later, false);
            && (u.answer.Some? <==> row.result == Some(result)) && u.system.flights == s.flights
            && (u.answer.Some? ==>
                  u.answer.value == row.(status := EffectConfirmed) && IsConfirmed(s.world, u.system.world, id, later))
            && (u.answer.None? ==>
                  u.system.world == s.world.(ledger := s.world.ledger[b.jti := Spent(s.world.ledger[b.jti], b, None)],
                                             consumed := s.world.consumed + {b}))
  {
    var b := BindingOf(row);
    var w1 := s.world.(ledger := s.world.ledger[b.jti := Spent(s.world.ledger[b.jti], b, None)],
                       consumed := s.world.consumed + {b});
    assert SettleStep(s.world, b, LedgerConsumed) == Done(w1);
    assert o.system == System(w1, s.flights[id := Confirming(row, result)]);
    hide SettleStep, BridgeOk, LedgerOk, Committable;
    var o1 := Advance(o.system, id, later, false);
    if row.result == Some(result) {
      MarkConfirmed(s, w1, id, row, result, later);
    } else {
      assert o1 == Fail(o.system, id);
      assert o1.system.flights == s.flights;
      assert Complete(o1, id, later, false) == o1;
    }
  }

  // ---- dispatch -------------------------------------------------------------------------------

  /** Each step of a dispatch with its own clock. */
  function DispatchWhole(s: System, id: ReservationId, requestId: Name, requestedAt: int, now: int, prepareNow: int,
                         taken: bool, storeNow: int): Outcome {
    var o := Perform(s, StartDispatch(id, requestId, requestedAt, now));
    if id !in o.system.flights then o
    else
      var p := Advance(o.system, id, prepareNow, taken);
      if id !in p.system.flights then p else Advance(p.system, id, storeNow, false)
  }

  /** A tombstone is kept until seven days after it was marked and until seven days after its token ran out. */
  predicate Remembered(row: LedgerRow, now: int) {
    || row.journalTerminalAt.None?
    || now <= row.journalTerminalAt.value + 604_800_000
    || now < 1000 * (row.binding.expiresAt + 1) + 604_800_000
  }

  function Kept(ledger: map<Name, LedgerRow>, now: int): map<Name, LedgerRow> {
    map j | j in ledger && Remembered(ledger[j], now) :: ledger[j]
  }

  predicate Shares(row: LedgerRow, b: Binding) {
    row.binding.jti == b.jti || row.binding.requestId == b.requestId
  }

  /** The token has not run out, and nothing that is remembered shares it, or only its own PREPARED tombstone does. */
  predicate Preparable(w: World, b: Binding, now: int, taken: bool) {
    var kept := Kept(w.ledger, now);
    && now < 1000 * b.expiresAt && !taken
    && (|| (|kept| < 10_000 && forall j :: j in kept ==> !Shares(kept[j], b))
        || (b.jti in kept && kept[b.jti].binding == b && kept[b.jti].state == LedgerPrepared
            && forall j :: j in kept && Shares(kept[j], b) ==> j == b.jti))
  }

  lemma PruneKeepsRemembered(ledger: map<Name, LedgerRow>, now: int)
    ensures Prune(ledger, now) == Kept(ledger, now)
  {
    forall j | j in ledger ensures Prunable(ledger[j], now) <==> !Remembered(ledger[j], now) {
    }
  }

  lemma PrepareDecided(w: World, b: Binding, now: int, taken: bool)
    requires LedgerOk(w.ledger, w.consumed)
    ensures PrepareStep(w, b, now, taken) ==
              if Preparable(w, b, now, taken)
              then Done(w.(ledger := Kept(w.ledger, now)[b.jti := LedgerRow(b, LedgerPrepared, None)])) else Refused
  {
    PruneKeepsRemembered(w.ledger, now);
    var kept := Kept(w.ledger, now);
    hide Prune, Remembered;
    if b.jti in kept {
      assert LedgerRowOk(w.ledger, b.jti);
      assert kept[b.jti := kept[b.jti]] == kept;
    }
  }

  /**
   * An undisturbed dispatch is answered if and only if the row was dispatched before, or is sealed, its binding
   * can be prepared and its own time has not passed. The ledger is prepared first, so it stays prepared when
   * only the last of these fails.
   */
  lemma DispatchAnswered(s: System, id: ReservationId, requestId: Name, requestedAt: int, now: int, prepareNow: int,
                         taken: bool, storeNow: int)
    requires SystemOk(s) && Callable(s, id, requestId, requestedAt, now)
    ensures var o := DispatchWhole(s, id, requestId, requestedAt, now, prepareNow, taken, storeNow);
            var w, u := s.world, o.system.world;
            var row := w.effects[id];
            var b := BindingOf(row);
            var prepared := row.status == EffectSealed && Preparable(w, b, prepareNow, taken);
            && (o.answer.Some? <==> WasDispatched(row.status) || (prepared && storeNow <= row.expiresAt))
            && (o.answer.Some? ==> id in u.effects && o.answer == Some(u.effects[id]))
            && o.system.flights == s.flights && u.heads == w.heads && u.consumed == w.consumed
            && u.ledger == (if prepared then Kept(w.ledger, prepareNow)[b.jti := LedgerRow(b, LedgerPrepared, None)]
                            else w.ledger)
            && u.effects == (if !prepared then w.effects
                             else w.effects[id := if storeNow <= row.expiresAt then row.(status := EffectHold)
                                                  else row.(status := EffectExpired, result := None)])
  {
    hide Core;
    BridgeOf(s.world, id);
    var row := s.world.effects[id];
    if row.status == EffectSealed {
      SealedDispatchAnswered(s, id, requestId, requestedAt, now, prepareNow, taken, storeNow);
      hide DispatchWhole, Preparable, Kept;
    }
  }

  lemma SealedDispatchAnswered(s: System, id: ReservationId, requestId: Name, requestedAt: int, now: int, prepareNow: int,
                               taken: bool, storeNow: int)
    requires Callable(s, id, requestId, requestedAt, now) && s.world.effects[id].status == EffectSealed
    requires LedgerOk(s.world.ledger, s.world.consumed)
    ensures var o := DispatchWhole(s, id, requestId, requestedAt, now, prepareNow, taken, storeNow);
            var w := s.world;
            var row := w.effects[id];
            var b := BindingOf(row);
            if !Preparable(w, b, prepareNow, taken) then o == Outcome(s, None)
            else
              var u := w.(ledger := Kept(w.ledger, prepareNow)[b.jti := LedgerRow(b, LedgerPrepared, None)]);
              if storeNow <= row.expiresAt then
                var held := row.(status := EffectHold);
                o == Outcome(s.(world := u.(effects := w.effects[id := held])), Some(held))
              else
                o == Outcome(s.(world := u.(effects := w.effects[id := row.(status := EffectExpired, result := None)])), None)
  {
    var row := s.world.effects[id];
    var b := BindingOf(row);
    var preparing := s.flights[id := Preparing(row)];
    assert Perform(s, StartDispatch(id, requestId, requestedAt, now)).system == s.(flights := preparing);
    PrepareDecided(s.world, b, prepareNow, taken);
    hide Preparable, Kept, PrepareStep, Perform, Callable, LedgerOk;
    assert preparing - {id} == s.flights;
    if Preparable(s.world, b, prepareNow, taken) {
      var u := s.world.(ledger := Kept(s.world.ledger, prepareNow)[b.jti := LedgerRow(b, LedgerPrepared, None)]);
      assert preparing[id := Dispatching(row)] == s.flights[id := Dispatching(row)];
      assert Advance(s.(flights := preparing), id, prepareNow, taken).system == System(u, s.flights[id := Dispatching(row)]);
      DispatchingCompletes(s, u, id, row, storeNow);
    }
  }

  lemma DispatchingCompletes(s: System, u: World, id: ReservationId, row: EffectRow, now: int)
    requires id !in s.flights && id in u.effects && u.effects[id] == row && row.status == EffectSealed
    ensures Advance(System(u, s.flights[id := Dispatching(row)]), id, now, false) ==
              if now <= row.expiresAt
              then Outcome(System(u.(effects := u.effects[id := row.(status := EffectHold)]), s.flights),
                           Some(row.(status := EffectHold)))
              else Outcome(System(u.(effects := u.effects[id := row.(status := EffectExpired, result := None)]), s.flights),
                           None)
  {
    assert s.flights[id := Dispatching(row)] - {id} == s.flights;
  }

  // ---- spent tokens ---------------------------------------------------------------------------

  /** The ledger holds the consumed tombstone of this binding. */
  predicate SpentAt(w: World, b: Binding) {
    b.jti in w.ledger && w.ledger[b.jti].binding == b && w.ledger[b.jti].state == LedgerConsumed
  }

  /** Too early for the tombstone to be forgotten: its token, or its mark, is not seven days old. */
  predicate Early(w: World, b: Binding, now: int)
    requires b.jti in w.ledger
  {
    || now < 1000 * (b.expiresAt + 1) + TOMBSTONE_GRACE_MS
    || (w.ledger[b.jti].journalTerminalAt.Some? && now <= w.ledger[b.jti].journalTerminalAt.value + TOMBSTONE_GRACE_MS)
  }

  /** A tombstone changes only by gaining a mark. */
  predicate StaysSpent(w: World, u: World, b: Binding) {
    SpentAt(w, b) ==>
      && SpentAt(u, b)
      && (w.ledger[b.jti].journalTerminalAt.Some? ==> u.ledger[b.jti] == w.ledger[b.jti])
  }

  lemma PrepareLeavesSpent(w: World, c: Binding, now: int, taken: bool, b: Binding)
    requires SpentAt(w, b) && Early(w, b, now)
    ensures StaysSpent(w, Commit(w, PrepareStep(w, c, now, taken)), b)
    ensures Shares(w.ledger[b.jti], c) ==> PrepareStep(w, c, now, taken) == Refused
  {
    PruneKeepsRemembered(w.ledger, now);
    assert b.jti in Prune(w.ledger, now);
    assert SameKey(w.ledger[b.jti], c) <==> Shares(w.ledger[b.jti], c);
  }

  lemma AdvanceLeavesSpent(s: System, id: ReservationId, now: int, taken: bool, b: Binding)
    requires SpentAt(s.world, b) && Early(s.world, b, now)
    ensures StaysSpent(s.world, Advance(s, id, now, taken).system.world, b)
  {
    if id in s.flights && s.flights[id].Preparing? {
      PrepareLeavesSpent(s.world, BindingOf(s.flights[id].row), now, taken, b);
    }
    hide PrepareStep, Prune, EffectReserveStep, ReplaceStep, Early, Unseen;
  }

  lemma PerformLeavesSpent(s: System, e: Event, b: Binding)
    requires SpentAt(s.world, b) && (e.Resume? ==> Early(s.world, b, e.now))
    ensures StaysSpent(s.world, Perform(s, e).system.world, b)
  {
    match e
    case Resume(id, now, taken) => AdvanceLeavesSpent(s, id, now, taken, b);
    case _ => hide Advance, EffectReserveStep;
  }

  /**
   * A consumed token is remembered, whatever happens, as long as no clock is seven days past its expiry or seven
   * days past its mark. Until then nothing that shares its token or its request can be prepared.
   */
  lemma {:induction false} TokenStaysSpent(s: System, events: seq<Event>, b: Binding, c: Binding, now: int, taken: bool)
    requires SpentAt(s.world, b) && Early(s.world, b, now)
    requires forall i :: 0 <= i < |events| && events[i].Resume? ==> Early(s.world, b, events[i].now)
    ensures SpentAt(Run(s, events).world, b)
    ensures c.jti == b.jti || c.requestId == b.requestId ==> PrepareStep(Run(s, events).world, c, now, taken) == Refused
    decreases |events|
  {
    hide Perform, PrepareStep;
    if events == [] {
      PrepareLeavesSpent(s.world, c, now, taken, b);
    } else {
      var t := Perform(s, events[0]).system;
      PerformLeavesSpent(s, events[0], b);
      forall i | 0 <= i < |events[1..]| && events[1..][i].Resume? ensures Early(t.world, b, events[1..][i].now) {
        assert events[1..][i] == events[i + 1];
      }
      TokenStaysSpent(t, events[1..], b, c, now, taken);
    }
  }
}
