/**
 * What each transaction of the two stores does to a coherent world, and exactly when: in terms of the stored
 * rows, and of nothing that the steps are written with.
 */
module AuthorityTransactions {
  import opened Foundation
  import opened Clock
  import opened AuthorityTypes
  import opened AuthoritySteps
  import opened AuthorityInvariant

  // ---- heads ----------------------------------------------------------------------------------

  /** Every head is confirmed. */
  predicate Settled(heads: seq<HeadRow>) {
    heads == [] || heads[|heads| - 1].mirror == MirrorConfirmed
  }

  /** An effect that still counts at `now`: dispatched, or undispatched with its time not past. */
  predicate Lives(row: EffectRow, now: int) {
    || row.status == EffectHold
    || (row.status in {EffectReserved, EffectSealed} && !After(now, row.expiresAt))
  }

  /** The columns repeat what the bytes say. */
  predicate Agrees(input: HeadInput) {
    && input.recordId == input.head && input.recordSha == input.head
    && input.head.activatedId == input.activatedId && input.head.activatedSha == input.activatedSha
    && input.head.authorities == input.authorities && input.head.ingress == input.ingress
    && input.head.committedAt == input.committedAt
    && IsStamp(input.committedAt) && 1 <= input.head.generation <= GENERATION_MAX
  }

  /** The head in the bytes is the next one: numbered, and linked to the last row. */
  predicate IsNext(heads: seq<HeadRow>, input: HeadInput) {
    && input.generation == input.head.generation == |heads| + 1
    && if heads == [] then input.head.previous == Genesis
       else input.head.previous == Link(|heads|, heads[|heads| - 1].head, heads[|heads| - 1].head)
  }

  predicate New(heads: seq<HeadRow>, input: HeadInput) {
    forall i :: 0 <= i < |heads| ==>
      && heads[i].request != input.request && heads[i].activatedId != input.activatedId
      && heads[i].activatedSha != input.activatedSha && heads[i].ingress != input.ingress
  }

  predicate Appendable(w: World, input: HeadInput, now: int) {
    && Agrees(input) && Settled(w.heads) && IsNext(w.heads, input) && New(w.heads, input)
    && forall id :: id in w.effects ==> !Lives(w.effects[id], now)
  }

  predicate IsExpired(row: EffectRow, now: int) {
    row.status in {EffectReserved, EffectSealed} && After(now, row.expiresAt)
  }

  /** The row that an input makes. */
  function Written(input: HeadInput): HeadRow {
    HeadRow(input.generation, input.request, input.head, input.head, input.head, input.activatedId, input.activatedSha,
            input.authorities, input.ingress, input.committedAt, MirrorPrepared, None)
  }

  /** This very head is stored already, however far its mirror has come. */
  predicate Stored(heads: seq<HeadRow>, input: HeadInput) {
    && input.recordId == input.head && input.recordSha == input.head
    && exists i :: 0 <= i < |heads| && heads[i].(mirror := MirrorPrepared, worm := None) == Written(input)
  }

  /** The appended row, and every undispatched effect whose time has passed expired without its result. */
  predicate IsAppended(w: World, u: World, input: HeadInput, now: int) {
    && u.ledger == w.ledger && u.consumed == w.consumed
    && |u.heads| == |w.heads| + 1 && u.heads[..|w.heads|] == w.heads
    && u.heads[|w.heads|] == Written(input)
    && u.effects.Keys == w.effects.Keys
    && forall id :: id in w.effects ==>
         u.effects[id] == if IsExpired(w.effects[id], now) then w.effects[id].(status := EffectExpired, result := None)
                          else w.effects[id]
  }

  lemma LinkDecides(heads: seq<HeadRow>, input: HeadInput)
    requires HeadsOk(heads) && Settled(heads)
    ensures !HasPending(heads)
    ensures BoundInput(input) && input.generation == CurrentGeneration(heads) + 1
            && LinksTo(input.head.previous, CurrentHead(heads)) <==>
            Agrees(input) && IsNext(heads, input)
  {
    PendingIsLast(heads);
    CurrentWhenSettled(heads);
    if heads != [] {
      assert HeadOk(heads, |heads| - 1);
    }
  }

  lemma LiveDecides(effects: map<ReservationId, EffectRow>, now: int)
    ensures HasNonterminalEffect(ExpireForHead(effects, now)) <==> exists id :: id in effects && Lives(effects[id], now)
  {
    var after := ExpireForHead(effects, now);
    if id :| id in effects && Lives(effects[id], now) {
      assert id in after && Pinned(after[id].status);
    }
    if id :| id in after && Pinned(after[id].status) {
      assert Lives(effects[id], now);
    }
  }

  lemma StoredIsFound(heads: seq<HeadRow>, input: HeadInput)
    requires HeadsOk(heads) && Agrees(input)
    ensures Stored(heads, input) <==>
              FindRequest(heads, input.request).Some? && SameReserved(heads[FindRequest(heads, input.request).value], input)
  {
    if i :| 0 <= i < |heads| && heads[i].(mirror := MirrorPrepared, worm := None) == Written(input) {
      assert heads[i].request == input.request;
      var j := FindRequest(heads, input.request).value;
      assert if i < j then HeadsApart(heads[i], heads[j]) else i == j || HeadsApart(heads[j], heads[i]);
    }
  }

  lemma StoredAgrees(heads: seq<HeadRow>, input: HeadInput)
    requires HeadsOk(heads) && Stored(heads, input)
    ensures Agrees(input) && ParsesHead(input.head)
  {
    var i :| 0 <= i < |heads| && heads[i].(mirror := MirrorPrepared, worm := None) == Written(input);
    assert HeadOk(heads, i);
  }

  /** A head is appended exactly when it is the next one and nothing stands in its way; a repeat changes nothing. */
  lemma AppendDecided(w: World, input: HeadInput, now: int)
    requires Core(w)
    ensures match ReserveHeadStep(w, input, now)
            case Refused => !Appendable(w, input, now) && !Stored(w.heads, input)
            case Done(u) =>
              if Stored(w.heads, input) then u == w else Appendable(w, input, now) && IsAppended(w, u, input, now)
  {
    PendingIsLast(w.heads);
    LiveDecides(w.effects, now);
    if Settled(w.heads) {
      LinkDecides(w.heads, input);
    }
    if Stored(w.heads, input) {
      StoredAgrees(w.heads, input);
    }
    if Agrees(input) {
      StoredIsFound(w.heads, input);
    }
  }

  lemma FindsRow(heads: seq<HeadRow>, g: int)
    requires HeadsOk(heads)
    ensures FindGeneration(heads, g) == if 1 <= g <= |heads| then Some(g - 1) else None
  {
    var r := FindGeneration(heads, g);
    if 1 <= g <= |heads| {
      assert HeadOk(heads, g - 1);
    }
    if r.Some? {
      assert HeadOk(heads, r.value);
    }
  }

  /** The one row of generation `g` is rewritten. */
  function WithHead(w: World, g: int, row: HeadRow): World
    requires 1 <= g <= |w.heads|
  {
    w.(heads := w.heads[g - 1 := row])
  }

  lemma MarkDecided(w: World, g: int)
    requires Core(w)
    ensures MarkHeadStep(w, g) ==
              if !(1 <= g <= |w.heads|) then Refused
              else if w.heads[g - 1].mirror != MirrorPrepared then Done(w)
              else Done(WithHead(w, g, w.heads[g - 1].(mirror := MirrorDispatched)))
  {
    FindsRow(w.heads, g);
  }

  /** Only an object that proves the head confirms it, after the dispatch, and then only that object again. */
  lemma ConfirmDecided(w: World, g: int, worm: HeadWorm)
    requires Core(w)
    ensures var step := ConfirmHeadStep(w, g, worm);
            && (step.Done? <==>
                  && 1 <= g <= |w.heads| && Proves(w.heads[g - 1], worm) && w.heads[g - 1].mirror != MirrorPrepared
                  && (w.heads[g - 1].mirror == MirrorConfirmed ==> w.heads[g - 1].worm == Some(worm)))
            && (step.Done? ==>
                  step.world == WithHead(w, g, w.heads[g - 1].(mirror := MirrorConfirmed, worm := Some(worm))))
  {
    FindsRow(w.heads, g);
    if 1 <= g <= |w.heads| {
      assert HeadOk(w.heads, g - 1);
      assert w.heads[g - 1 := w.heads[g - 1]] == w.heads;
    }
  }

  // ---- effects --------------------------------------------------------------------------------

  /** One effect is rewritten. */
  function WithEffect(w: World, id: ReservationId, row: EffectRow): World {
    w.(effects := w.effects[id := row])
  }

  lemma SealDecided(w: World, id: ReservationId, result: Name)
    requires Core(w)
    ensures var step := SealStep(w, id, result);
            && (step.Done? <==>
                  id in w.effects && (w.effects[id].status == EffectReserved || w.effects[id].result == Some(result)))
            && (step.Done? ==>
                  step.world == if w.effects[id].status != EffectReserved then w
                                else WithEffect(w, id, w.effects[id].(status := EffectSealed, result := Some(result))))
  {
    if id in w.effects {
      assert EffectOk(w.heads, id, w.effects[id]);
    }
  }

  /** What was never dispatched can be cancelled, and nothing else; a repeat changes nothing. */
  lemma CancelDecided(w: World, id: ReservationId)
    requires Core(w)
    ensures var step := CancelStep(w, id);
            && (step.Done? <==>
                  id in w.effects && w.effects[id].status !in {EffectHold, EffectConfirmed, EffectExpired})
            && (step.Done? ==> step.world == WithEffect(w, id, w.effects[id].(status := EffectCancelled, result := None)))
  {
    if id in w.effects {
      assert EffectOk(w.heads, id, w.effects[id]);
      assert w.effects[id := w.effects[id]] == w.effects;
    }
  }

  /** A sealed row is dispatched in time; late, or not sealed at all, it expires; anything further stays as it is. */
  lemma DispatchRowDecided(w: World, id: ReservationId, now: int)
    ensures DispatchStep(w, id, now) ==
              if id !in w.effects then Refused
              else
                var row := w.effects[id];
                if row.status == EffectSealed && now <= row.expiresAt then Done(WithEffect(w, id, row.(status := EffectHold)))
                else if row.status in {EffectReserved, EffectSealed}
                then Done(WithEffect(w, id, row.(status := EffectExpired, result := None)))
                else Done(w)
  {
  }

  /** A dispatched row is confirmed by its own result; the same result again changes nothing. */
  lemma AnswerDecided(w: World, id: ReservationId, result: Name)
    ensures var step := ConfirmStep(w, id, result);
            && (step.Done? <==>
                  && id in w.effects && w.effects[id].status in {EffectHold, EffectConfirmed}
                  && w.effects[id].result == Some(result))
            && (step.Done? ==> step.world == WithEffect(w, id, w.effects[id].(status := EffectConfirmed)))
  {
    if id in w.effects {
      assert w.effects[id := w.effects[id]] == w.effects;
    }
  }

  predicate RequestFree(w: World, request: Name, id: ReservationId) {
    forall x :: x in w.effects && w.effects[x].requestId == request ==> x == id
  }

  /** The row that a reservation makes. */
  function ReservedRow(r: Reservation): EffectRow {
    EffectRow(r, r.head, r.intent, r.requestId, r.createdAt, r.expiresAt, EffectReserved, None)
  }

  /** Which reservations the store accepts. */
  predicate Reservable(w: World, r: Reservation) {
    var id := ReservationId(r.head, r.intent);
    if id in w.effects then
      w.effects[id].status in {EffectSealed, EffectHold, EffectConfirmed} || RequestFree(w, r.requestId, id)
    else
      && w.heads != [] && Settled(w.heads)
      && r.head == HeadRef(|w.heads|, w.heads[|w.heads| - 1].head, w.heads[|w.heads| - 1].head)
      && (forall x :: x in w.effects ==> w.effects[x].intent != r.intent && w.effects[x].requestId != r.requestId)
  }

  /** Reservations whose time has passed expire; the row asked for is written unless it went further already. */
  predicate IsReserved(w: World, u: World, r: Reservation, now: int) {
    var id := ReservationId(r.head, r.intent);
    && u.heads == w.heads && u.ledger == w.ledger && u.consumed == w.consumed
    && u.effects.Keys == w.effects.Keys + {id}
    && u.effects[id] == (if id in w.effects && w.effects[id].status in {EffectSealed, EffectHold, EffectConfirmed}
                         then w.effects[id] else ReservedRow(r))
    && forall x :: x in w.effects && x != id ==>
         u.effects[x] == if w.effects[x].status == EffectReserved && After(now, w.effects[x].expiresAt)
                         then w.effects[x].(status := EffectExpired, result := None) else w.effects[x]
  }

  lemma ReserveAgainDecided(w: World, r: Reservation, now: int)
    requires Core(w) && ValidReservation(r) && IdOf(r) in w.effects
    ensures var step := EffectReserveStep(w, r, now);
            && (step.Done? <==> Reservable(w, r))
            && (step.Done? ==> IsReserved(w, step.world, r, now))
  {
    var id := IdOf(r);
    var after := ExpireUndispatched(w.effects, now);
    assert EffectOk(w.heads, id, w.effects[id]);
    hide Core;
    assert RequestTaken(after, r.requestId, id) <==> !RequestFree(w, r.requestId, id) by {
      if !RequestFree(w, r.requestId, id) {
        var x :| x in w.effects && w.effects[x].requestId == r.requestId && x != id;
        assert x in after && after[x].requestId == r.requestId;
      }
    }
  }

  lemma ReserveNewDecided(w: World, r: Reservation, now: int)
    requires Core(w) && ValidReservation(r) && IdOf(r) !in w.effects
    ensures var step := EffectReserveStep(w, r, now);
            && (step.Done? <==> Reservable(w, r))
            && (step.Done? ==> IsReserved(w, step.world, r, now))
  {
    var after := ExpireUndispatched(w.effects, now);
    PendingIsLast(w.heads);
    if Settled(w.heads) {
      CurrentWhenSettled(w.heads);
    }
    if w.heads != [] {
      assert HeadOk(w.heads, |w.heads| - 1);
    }
    hide Core, HasPending, CurrentHead;
    TakenDecides(w.effects, after, r, IdOf(r));
  }

  /** The store accepts exactly these reservations, and leaves exactly this. */
  lemma ReserveDecided(w: World, r: Reservation, now: int)
    requires Core(w) && ValidReservation(r)
    ensures var step := EffectReserveStep(w, r, now);
            && (step.Done? <==> Reservable(w, r))
            && (step.Done? ==> IsReserved(w, step.world, r, now))
  {
    hide Core, EffectReserveStep, Reservable, IsReserved;
    if IdOf(r) in w.effects {
      ReserveAgainDecided(w, r, now);
    } else {
      ReserveNewDecided(w, r, now);
    }
  }

  /** A dispatched row is reserved again for the same intent under the same head, if no other row has the request. */
  lemma RearmDecided(w: World, id: ReservationId, r: Reservation)
    requires Core(w) && ValidReservation(r)
    ensures RearmStep(w, id, r) ==
              if id in w.effects && id == ReservationId(r.head, r.intent) && w.effects[id].status == EffectHold
                 && RequestFree(w, r.requestId, id)
              then Done(WithEffect(w, id, ReservedRow(r))) else Refused
  {
    if id in w.effects {
      assert EffectOk(w.heads, id, w.effects[id]);
    }
  }

  lemma TakenDecides(effects: map<ReservationId, EffectRow>, after: map<ReservationId, EffectRow>, r: Reservation,
                     id: ReservationId)
    requires after.Keys == effects.Keys && id !in effects
    requires forall x :: x in effects ==> after[x].requestId == effects[x].requestId && after[x].intent == effects[x].intent
    ensures IntentTaken(after, r.intent) || RequestTaken(after, r.requestId, id) <==>
              exists x :: x in effects && (effects[x].intent == r.intent || effects[x].requestId == r.requestId)
  {
    if x :| x in effects && (effects[x].intent == r.intent || effects[x].requestId == r.requestId) {
      assert x in after;
    }
  }

  // ---- ledger ---------------------------------------------------------------------------------

  /** The only tombstone with this token or this request is that of this very binding. */
  predicate Holds(w: World, b: Binding) {
    && b.jti in w.ledger && w.ledger[b.jti].binding == b
    && forall j :: j in w.ledger && (w.ledger[j].binding.jti == b.jti || w.ledger[j].binding.requestId == b.requestId) ==>
         j == b.jti
  }

  predicate Knows(w: World, b: Binding) {
    exists j :: j in w.ledger && (w.ledger[j].binding.jti == b.jti || w.ledger[j].binding.requestId == b.requestId)
  }

  lemma HoldsIsExact(w: World, b: Binding)
    ensures Exact(w.ledger, b) <==> Holds(w, b)
    ensures Unseen(w.ledger, b) <==> !Knows(w, b)
  {
  }

  /** An unknown binding is absent, its own tombstone tells its state, and anything else is a conflict. */
  lemma ObserveDecided(w: World, b: Binding)
    ensures Observe(w, b) == if !Knows(w, b) then Some(Absent)
                             else if Holds(w, b) then Some(Found(w.ledger[b.jti].state)) else None
  {
    HoldsIsExact(w, b);
  }

  /** A prepared tombstone is settled once; settling it the same way again changes nothing. */
  lemma SettleDecided(w: World, b: Binding, to: LedgerState)
    requires to != LedgerPrepared && LedgerOk(w.ledger, w.consumed)
    ensures SettleStep(w, b, to) ==
              if !Holds(w, b) || w.ledger[b.jti].state !in {LedgerPrepared, to} then Refused
              else if w.ledger[b.jti].state == to then Done(w)
              else Done(w.(ledger := w.ledger[b.jti := LedgerRow(b, to, None)],
                           consumed := if to == LedgerConsumed then w.consumed + {b} else w.consumed))
  {
    HoldsIsExact(w, b);
    if Holds(w, b) {
      assert LedgerRowOk(w.ledger, b.jti);
    }
  }

  /** A settled tombstone is marked, and keeps the time of its first marking. */
  lemma TombstoneMarkDecided(w: World, b: Binding, now: int)
    ensures MarkStep(w, b, now) ==
              if !Holds(w, b) || w.ledger[b.jti].state == LedgerPrepared then Refused
              else if w.ledger[b.jti].journalTerminalAt.Some? then Done(w)
              else Done(w.(ledger := w.ledger[b.jti := LedgerRow(b, w.ledger[b.jti].state, Some(now))]))
  {
    HoldsIsExact(w, b);
  }
}
