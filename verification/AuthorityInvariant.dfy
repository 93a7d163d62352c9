/**
 * What every step of the stores and of the ledger keeps. `Core` holds whatever waits between the steps of
 * a call; `PinsOk`, that live effects name the last head, is kept apart because one wait breaks it.
 */
module AuthorityInvariant {
  import opened Foundation
  import opened Clock
  import opened AuthorityTypes
  import opened AuthoritySteps

  // ---- heads ----------------------------------------------------------------------------------

  function LinkOf(row: HeadRow): Previous {
    Link(row.generation, row.recordId, row.recordSha)
  }

  /** The object under which a head was written: its own digest and key, kept long enough. */
  predicate Proves(row: HeadRow, worm: HeadWorm) {
    && worm.digest == row.head && worm.key == HeadKey(row.generation, row.head)
    && IsStamp(worm.retentionUntil) && row.committedAt + RETENTION_MS <= worm.retentionUntil
  }

  /** Row `i` carries generation `i + 1`, inside and outside its bytes, and links to row `i - 1`. */
  predicate HeadOk(heads: seq<HeadRow>, i: nat)
    requires i < |heads|
  {
    var row := heads[i];
    && row.generation == row.head.generation == i + 1
    && ParsesHead(row.head)
    && row.recordId == row.recordSha == row.head
    && row.head.activatedId == row.activatedId && row.head.activatedSha == row.activatedSha
    && row.head.authorities == row.authorities && row.head.ingress == row.ingress
    && row.head.committedAt == row.committedAt
    && row.head.previous == (if i == 0 then Genesis else LinkOf(heads[i - 1]))
    && (row.mirror == MirrorConfirmed <==> row.worm.Some?)
    && (row.worm.Some? ==> Proves(row, row.worm.value))
    && (i + 1 < |heads| ==> row.mirror == MirrorConfirmed)
  }

  predicate HeadsApart(a: HeadRow, b: HeadRow) {
    && a.request != b.request && a.activatedId != b.activatedId && a.activatedSha != b.activatedSha
    && a.ingress != b.ingress
  }

  predicate HeadsOk(heads: seq<HeadRow>) {
    && (forall i {:trigger HeadOk(heads, i)} :: 0 <= i < |heads| ==> HeadOk(heads, i))
    && (forall i, j {:trigger HeadsApart(heads[i], heads[j])} ::
          0 <= i < j < |heads| ==> HeadsApart(heads[i], heads[j]))
  }

  // ---- effects --------------------------------------------------------------------------------

  /** An effect names a confirmed head of the chain. */
  predicate EffectOk(heads: seq<HeadRow>, id: ReservationId, row: EffectRow) {
    && ValidReservation(row.reservation)
    && IdOf(row.reservation) == id
    && row.head == row.reservation.head && row.intent == row.reservation.intent
    && row.requestId == row.reservation.requestId
    && row.createdAt == row.reservation.createdAt && row.expiresAt == row.reservation.expiresAt
    && (row.result.Some? <==> HasResult(row.status))
    && 1 <= row.head.generation <= |heads|
    && row.head == HeadRef(row.head.generation, heads[row.head.generation - 1].head,
                           heads[row.head.generation - 1].head)
    && heads[row.head.generation - 1].mirror == MirrorConfirmed
  }

  /** A live effect names the last head. */
  predicate PinOk(heads: seq<HeadRow>, row: EffectRow) {
    Pinned(row.status) ==> row.head.generation == |heads|
  }

  predicate PinsOk(w: World) {
    forall id {:trigger PinOk(w.heads, w.effects[id])} :: id in w.effects ==> PinOk(w.heads, w.effects[id])
  }

  predicate EffectsApart(a: EffectRow, b: EffectRow) {
    a.intent != b.intent && a.requestId != b.requestId
  }

  predicate EffectsOk(heads: seq<HeadRow>, effects: map<ReservationId, EffectRow>) {
    && (forall id {:trigger EffectOk(heads, id, effects[id])} :: id in effects ==> EffectOk(heads, id, effects[id]))
    && (forall a, b {:trigger EffectsApart(effects[a], effects[b])} ::
          a in effects && b in effects && a != b ==> EffectsApart(effects[a], effects[b]))
  }

  // ---- ledger and the bridge ------------------------------------------------------------------

  predicate LedgerRowOk(ledger: map<Name, LedgerRow>, j: Name)
    requires j in ledger
  {
    && ledger[j].binding.jti == j
    && (ledger[j].state == LedgerPrepared ==> ledger[j].journalTerminalAt.None?)
  }

  predicate LedgerOk(ledger: map<Name, LedgerRow>, consumed: set<Binding>) {
    && (forall j {:trigger LedgerRowOk(ledger, j)} :: j in ledger ==> LedgerRowOk(ledger, j))
    && (forall j, k :: j in ledger && k in ledger && ledger[j].binding.requestId == ledger[k].binding.requestId ==> j == k)
    && (forall j :: j in ledger && ledger[j].state == LedgerConsumed ==> ledger[j].binding in consumed)
  }

  /** A dispatched effect always has its tombstone, which cannot be pruned; a confirmed one was consumed. */
  predicate BridgeOk(ledger: map<Name, LedgerRow>, consumed: set<Binding>, row: EffectRow) {
    var b := BindingOf(row);
    && (row.status == EffectHold ==> Exact(ledger, b) && ledger[b.jti].journalTerminalAt.None?)
    && (row.status == EffectConfirmed ==>
          && b in consumed
          && (b.jti in ledger && ledger[b.jti].binding == b ==> ledger[b.jti].state == LedgerConsumed))
  }

  predicate BridgesOk(w: World) {
    forall id {:trigger BridgeOk(w.ledger, w.consumed, w.effects[id])} ::
      id in w.effects ==> BridgeOk(w.ledger, w.consumed, w.effects[id])
  }

  predicate Core(w: World) {
    HeadsOk(w.heads) && EffectsOk(w.heads, w.effects) && LedgerOk(w.ledger, w.consumed) && BridgesOk(w)
  }

  predicate Inv(w: World) {
    Core(w) && PinsOk(w)
  }

  /** The ledger holds exactly this binding, in this state, and not yet marked for pruning. */
  predicate Says(w: World, b: Binding, state: LedgerState) {
    b.jti in w.ledger && w.ledger[b.jti] == LedgerRow(b, state, None)
  }

  /** No other row of the ledger shares a token or a request with a row that is there. */
  lemma SaysExactly(w: World, b: Binding, state: LedgerState)
    requires LedgerOk(w.ledger, w.consumed) && Says(w, b, state)
    ensures Exact(w.ledger, b)
  {
    forall j | j in w.ledger && SameKey(w.ledger[j], b) ensures j == b.jti {
      assert LedgerRowOk(w.ledger, j);
    }
  }

  // ---- head lemmas ----------------------------------------------------------------------------

  /** With the invariant, the current head is the last confirmed row. */
  lemma {:induction false} CurrentIsLast(heads: seq<HeadRow>, n: nat)
    requires HeadsOk(heads) && n <= |heads|
    ensures var c := CurrentHead(heads[..n]);
            if n == 0 then c.None?
            else if heads[n - 1].mirror == MirrorConfirmed then c == Some(heads[n - 1])
            else if n == 1 then c.None? else c == Some(heads[n - 2])
  {
    if n > 0 {
      assert heads[..n][..n - 1] == heads[..n - 1];
      CurrentIsLast(heads, n - 1);
      assert HeadOk(heads, n - 1);
      if n > 1 {
        assert HeadOk(heads, n - 2);
      }
    }
  }

  lemma CurrentWhenSettled(heads: seq<HeadRow>)
    requires HeadsOk(heads) && !HasPending(heads)
    ensures CurrentHead(heads) == (if heads == [] then None else Some(heads[|heads| - 1]))
    ensures CurrentGeneration(heads) == |heads|
  {
    CurrentIsLast(heads, |heads|);
    assert heads[..|heads|] == heads;
    if heads != [] {
      assert HeadOk(heads, |heads| - 1);
    }
  }

  lemma PendingIsLast(heads: seq<HeadRow>)
    requires HeadsOk(heads)
    ensures HasPending(heads) <==> heads != [] && heads[|heads| - 1].mirror != MirrorConfirmed
  {
    if HasPending(heads) {
      var i :| 0 <= i < |heads| && heads[i].mirror != MirrorConfirmed;
      assert HeadOk(heads, i);
    }
  }

  /** The appended bytes carry the row's own generation, although nothing compares the two. */
  lemma GenerationInBytes(heads: seq<HeadRow>, input: HeadInput)
    requires HeadsOk(heads) && !HasPending(heads)
    requires BoundInput(input) && input.generation == CurrentGeneration(heads) + 1
    requires LinksTo(input.head.previous, CurrentHead(heads))
    ensures input.head.generation == input.generation == |heads| + 1
  {
    CurrentWhenSettled(heads);
  }

  lemma AppendKeepsHeads(heads: seq<HeadRow>, input: HeadInput)
    requires HeadsOk(heads) && !HasPending(heads)
    requires BoundInput(input) && FindRequest(heads, input.request).None? && !Recurs(heads, input)
    requires input.generation == CurrentGeneration(heads) + 1
    requires LinksTo(input.head.previous, CurrentHead(heads))
    ensures HeadsOk(heads + [NewHead(input)])
  {
    GenerationInBytes(heads, input);
    CurrentWhenSettled(heads);
    var after := heads + [NewHead(input)];
    forall i | 0 <= i < |after| ensures HeadOk(after, i) {
      if i < |heads| {
        assert HeadOk(heads, i);
      }
    }
    forall i, j | 0 <= i < j < |after| ensures HeadsApart(after[i], after[j]) {
      if j < |heads| {
        assert HeadsApart(heads[i], heads[j]);
      }
    }
  }

  predicate SameButMirror(a: HeadRow, b: HeadRow) {
    b == a.(mirror := b.mirror, worm := b.worm)
  }

  lemma MirrorKeepsHeads(heads: seq<HeadRow>, i: nat, row: HeadRow)
    requires HeadsOk(heads) && i < |heads| && SameButMirror(heads[i], row)
    requires row.mirror == MirrorConfirmed <==> row.worm.Some?
    requires row.worm.Some? ==> Proves(row, row.worm.value)
    requires heads[i].mirror != MirrorConfirmed
    ensures HeadsOk(heads[i := row])
  {
    var after := heads[i := row];
    assert HeadOk(heads, i);
    forall k | 0 <= k < |after| ensures HeadOk(after, k) {
      assert HeadOk(heads, k);
    }
    forall a, b | 0 <= a < b < |after| ensures HeadsApart(after[a], after[b]) {
      assert HeadsApart(heads[a], heads[b]);
    }
  }

  // ---- effects under head steps ---------------------------------------------------------------

  /** Heads may change as long as every effect still finds its head. */
  lemma EffectsFollow(heads: seq<HeadRow>, heads': seq<HeadRow>, effects: map<ReservationId, EffectRow>)
    requires EffectsOk(heads, effects) && |heads'| >= |heads|
    requires forall i :: 0 <= i < |heads| ==> SameButMirror(heads[i], heads'[i])
    requires forall i :: 0 <= i < |heads| && heads[i].mirror == MirrorConfirmed ==> heads'[i] == heads[i]
    ensures EffectsOk(heads', effects)
  {
    forall id | id in effects ensures EffectOk(heads', id, effects[id]) {
      assert EffectOk(heads, id, effects[id]);
    }
  }

  predicate Lapsed(a: map<ReservationId, EffectRow>, b: map<ReservationId, EffectRow>) {
    && b.Keys == a.Keys
    && forall id {:trigger b[id]} :: id in a ==>
         b[id] == a[id] || (a[id].status in {EffectReserved, EffectSealed} && b[id] == Lapse(a[id]))
  }

  /** Expiry touches neither head, intent, request nor anything that was dispatched. */
  lemma LapseKeeps(w: World, effects: map<ReservationId, EffectRow>)
    requires Core(w) && Lapsed(w.effects, effects)
    ensures Core(w.(effects := effects)) && (PinsOk(w) ==> PinsOk(w.(effects := effects)))
  {
    forall id | id in effects ensures EffectOk(w.heads, id, effects[id]) {
      assert EffectOk(w.heads, id, w.effects[id]);
    }
    forall a, b | a in effects && b in effects && a != b ensures EffectsApart(effects[a], effects[b]) {
      assert EffectsApart(w.effects[a], w.effects[b]);
    }
    forall id | id in effects ensures BridgeOk(w.ledger, w.consumed, effects[id]) {
      assert BridgeOk(w.ledger, w.consumed, w.effects[id]);
    }
    if PinsOk(w) {
      forall id | id in effects ensures PinOk(w.heads, effects[id]) {
        assert PinOk(w.heads, w.effects[id]);
      }
    }
  }

  lemma ReserveHeadKeeps(w: World, input: HeadInput, now: int)
    requires Core(w) && ReserveHeadStep(w, input, now).Done?
    ensures Core(ReserveHeadStep(w, input, now).world)
    ensures PinsOk(w) ==> PinsOk(ReserveHeadStep(w, input, now).world)
  {
    if FindRequest(w.heads, input.request).None? {
      var effects := ExpireForHead(w.effects, now);
      LapseKeeps(w, effects);
      AppendKeepsHeads(w.heads, input);
      var u := ReserveHeadStep(w, input, now).world;
      EffectsFollow(w.heads, u.heads, effects);
      assert BridgesOk(w.(effects := effects));
    }
  }

  lemma MirrorKeeps(w: World, i: nat, row: HeadRow)
    requires Core(w) && i < |w.heads| && SameButMirror(w.heads[i], row) && w.heads[i].mirror != MirrorConfirmed
    requires row.mirror == MirrorConfirmed <==> row.worm.Some?
    requires row.worm.Some? ==> Proves(row, row.worm.value)
    ensures Core(w.(heads := w.heads[i := row])) && (PinsOk(w) ==> PinsOk(w.(heads := w.heads[i := row])))
  {
    var u := w.(heads := w.heads[i := row]);
    MirrorKeepsHeads(w.heads, i, row);
    EffectsFollow(w.heads, u.heads, w.effects);
    assert BridgesOk(u);
    if PinsOk(w) {
      forall id | id in u.effects ensures PinOk(u.heads, u.effects[id]) {
        assert PinOk(w.heads, w.effects[id]);
      }
    }
  }

  lemma MarkHeadKeeps(w: World, g: int)
    requires Core(w) && MarkHeadStep(w, g).Done?
    ensures Core(MarkHeadStep(w, g).world) && (PinsOk(w) ==> PinsOk(MarkHeadStep(w, g).world))
  {
    var i := FindGeneration(w.heads, g).value;
    if w.heads[i].mirror == MirrorPrepared {
      assert HeadOk(w.heads, i);
      MirrorKeeps(w, i, w.heads[i].(mirror := MirrorDispatched));
    }
  }

  lemma ConfirmHeadKeeps(w: World, g: int, worm: HeadWorm)
    requires Core(w) && ConfirmHeadStep(w, g, worm).Done?
    ensures Core(ConfirmHeadStep(w, g, worm).world) && (PinsOk(w) ==> PinsOk(ConfirmHeadStep(w, g, worm).world))
  {
    var i := FindGeneration(w.heads, g).value;
    if w.heads[i].mirror != MirrorConfirmed {
      assert HeadOk(w.heads, i);
      MirrorKeeps(w, i, w.heads[i].(mirror := MirrorConfirmed, worm := Some(worm)));
    }
  }

  // ---- effect steps ---------------------------------------------------------------------------

  /** One row is written; it must be coherent, apart from the others, and bridged. */
  lemma PutKeeps(w: World, id: ReservationId, row: EffectRow)
    requires Core(w) && EffectOk(w.heads, id, row) && BridgeOk(w.ledger, w.consumed, row)
    requires forall x :: x in w.effects && x != id ==> EffectsApart(w.effects[x], row) && EffectsApart(row, w.effects[x])
    ensures Core(w.(effects := w.effects[id := row]))
    ensures PinsOk(w) && PinOk(w.heads, row) ==> PinsOk(w.(effects := w.effects[id := row]))
  {
    var effects := w.effects[id := row];
    forall x | x in effects ensures EffectOk(w.heads, x, effects[x]) {
      if x != id {
        assert EffectOk(w.heads, x, w.effects[x]);
      }
    }
    forall a, b | a in effects && b in effects && a != b ensures EffectsApart(effects[a], effects[b]) {
      if a != id && b != id {
        assert EffectsApart(w.effects[a], w.effects[b]);
      }
    }
    forall x | x in effects ensures BridgeOk(w.ledger, w.consumed, effects[x]) {
      if x != id {
        assert BridgeOk(w.ledger, w.consumed, w.effects[x]);
      }
    }
    if PinsOk(w) && PinOk(w.heads, row) {
      forall x | x in effects ensures PinOk(w.heads, effects[x]) {
        assert x != id ==> PinOk(w.heads, w.effects[x]);
      }
    }
  }

  /** A row keeps its identity columns and only moves in status, never back to a live one. */
  lemma MoveKeeps(w: World, id: ReservationId, status: EffectStatus, result: Option<Name>)
    requires Core(w) && id in w.effects
    requires result.Some? <==> HasResult(status)
    requires Pinned(status) ==> Pinned(w.effects[id].status)
    requires BridgeOk(w.ledger, w.consumed, w.effects[id].(status := status, result := result))
    ensures var u := w.(effects := w.effects[id := w.effects[id].(status := status, result := result)]);
            Core(u) && (PinsOk(w) ==> PinsOk(u))
  {
    assert EffectOk(w.heads, id, w.effects[id]);
    assert PinsOk(w) ==> PinOk(w.heads, w.effects[id]);
    forall x | x in w.effects && x != id
      ensures EffectsApart(w.effects[x], w.effects[id]) && EffectsApart(w.effects[id], w.effects[x])
    {
    }
    PutKeeps(w, id, w.effects[id].(status := status, result := result));
  }

  lemma ReplaceKeeps(w: World, id: ReservationId, r: Reservation)
    requires Core(w) && id in w.effects && IdOf(r) == id && ValidReservation(r)
    requires ReplaceStep(w, id, r).Done?
    ensures Core(ReplaceStep(w, id, r).world)
    ensures PinsOk(w) && r.head.generation == |w.heads| ==> PinsOk(ReplaceStep(w, id, r).world)
  {
    assert EffectOk(w.heads, id, w.effects[id]);
    var row := AuthoritySteps.Rearmed(w.effects[id], r);
    forall x | x in w.effects && x != id
      ensures EffectsApart(w.effects[x], row) && EffectsApart(row, w.effects[x])
    {
      assert EffectsApart(w.effects[x], w.effects[id]);
    }
    PutKeeps(w, id, row);
  }

  /** The reservation names the current head and no other is on its way. */
  predicate NamesCurrent(w: World, r: Reservation) {
    && !HasPending(w.heads) && CurrentHead(w.heads).Some?
    && var c := CurrentHead(w.heads).value; r.head == HeadRef(c.generation, c.recordId, c.recordSha)
  }

  lemma EffectReserveKeeps(w: World, r: Reservation, now: int)
    requires Core(w) && EffectReserveStep(w, r, now).Done?
    ensures Core(EffectReserveStep(w, r, now).world)
    ensures PinsOk(w) && NamesCurrent(w, r) ==> PinsOk(EffectReserveStep(w, r, now).world)
  {
    var w1 := w.(effects := ExpireUndispatched(w.effects, now));
    LapseKeeps(w, w1.effects);
    if !HasPending(w.heads) {
      CurrentWhenSettled(w.heads);
      if w.heads != [] {
        assert HeadOk(w.heads, |w.heads| - 1);
      }
    }
    var id := IdOf(r);
    if id in w1.effects {
      if w1.effects[id].status in {EffectReserved, EffectExpired, EffectCancelled} {
        ReplaceKeeps(w1, id, r);
      }
    } else {
      NewEffectOk(w1, r);
    }
  }

  lemma NewEffectOk(w: World, r: Reservation)
    requires Core(w) && w.heads != [] && w.heads[|w.heads| - 1].mirror == MirrorConfirmed
    requires var c := w.heads[|w.heads| - 1]; r.head == HeadRef(|w.heads|, c.head, c.head)
    requires ValidReservation(r) && IdOf(r) !in w.effects
    requires !IntentTaken(w.effects, r.intent) && !RequestTaken(w.effects, r.requestId, IdOf(r))
    ensures var u := w.(effects := w.effects[IdOf(r) := EffectRow(r, r.head, r.intent, r.requestId, r.createdAt,
                                                                  r.expiresAt, EffectReserved, None)]);
            Core(u) && (PinsOk(w) ==> PinsOk(u))
  {
    PutKeeps(w, IdOf(r), EffectRow(r, r.head, r.intent, r.requestId, r.createdAt, r.expiresAt, EffectReserved, None));
  }

  lemma SealKeeps(w: World, id: ReservationId, result: Name)
    requires Core(w) && SealStep(w, id, result).Done?
    ensures Core(SealStep(w, id, result).world) && (PinsOk(w) ==> PinsOk(SealStep(w, id, result).world))
  {
    if !HasResult(w.effects[id].status) {
      MoveKeeps(w, id, EffectSealed, Some(result));
    }
  }

  lemma CancelKeeps(w: World, id: ReservationId)
    requires Core(w) && CancelStep(w, id).Done?
    ensures Core(CancelStep(w, id).world) && (PinsOk(w) ==> PinsOk(CancelStep(w, id).world))
  {
    if w.effects[id].status != EffectCancelled {
      MoveKeeps(w, id, EffectCancelled, None);
    }
  }

  lemma ConfirmKeeps(w: World, id: ReservationId, result: Name)
    requires Core(w) && ConfirmStep(w, id, result).Done?
    requires w.effects[id].status == EffectHold ==> Says(w, BindingOf(w.effects[id]), LedgerConsumed)
    ensures Core(ConfirmStep(w, id, result).world) && (PinsOk(w) ==> PinsOk(ConfirmStep(w, id, result).world))
  {
    if w.effects[id].status == EffectHold {
      MoveKeeps(w, id, EffectConfirmed, Some(result));
    }
  }

  lemma DispatchKeeps(w: World, id: ReservationId, now: int)
    requires Core(w) && DispatchStep(w, id, now).Done?
    requires w.effects[id].status == EffectSealed ==> Says(w, BindingOf(w.effects[id]), LedgerPrepared)
    ensures Core(DispatchStep(w, id, now).world) && (PinsOk(w) ==> PinsOk(DispatchStep(w, id, now).world))
  {
    var row := w.effects[id];
    assert EffectOk(w.heads, id, row);
    if DispatchStep(w, id, now).world != w {
      if row.status != EffectSealed || row.expiresAt < now {
        MoveKeeps(w, id, EffectExpired, None);
      } else {
        SaysExactly(w, BindingOf(row), LedgerPrepared);
        MoveKeeps(w, id, EffectHold, row.result);
      }
    }
  }

  lemma RearmKeeps(w: World, id: ReservationId, r: Reservation)
    requires Core(w) && RearmStep(w, id, r).Done?
    ensures Core(RearmStep(w, id, r).world) && (PinsOk(w) ==> PinsOk(RearmStep(w, id, r).world))
  {
    assert EffectOk(w.heads, id, w.effects[id]);
    assert PinsOk(w) ==> PinOk(w.heads, w.effects[id]);
    ReplaceKeeps(w, id, r);
  }

  // ---- ledger steps ---------------------------------------------------------------------------

  /** Bindings of different reservations differ. */
  lemma BindingsApart(w: World, a: ReservationId, b: ReservationId)
    requires EffectsOk(w.heads, w.effects) && a in w.effects && b in w.effects && a != b
    ensures BindingOf(w.effects[a]) != BindingOf(w.effects[b])
  {
    assert EffectsApart(w.effects[a], w.effects[b]);
  }

  /** A ledger that still shows each dispatched and confirmed effect what the bridge needs. */
  lemma LedgerMoveKeeps(w: World, ledger: map<Name, LedgerRow>, consumed: set<Binding>)
    requires Core(w) && LedgerOk(ledger, consumed) && w.consumed <= consumed
    requires forall id {:trigger BridgeOk(ledger, consumed, w.effects[id])} ::
               id in w.effects && w.effects[id].status in {EffectHold, EffectConfirmed} ==>
                 BridgeOk(ledger, consumed, w.effects[id])
    ensures Core(w.(ledger := ledger, consumed := consumed))
  {
    forall id | id in w.effects ensures BridgeOk(ledger, consumed, w.effects[id]) {
    }
  }

  lemma PruneKeeps(w: World, now: int)
    requires Core(w)
    ensures Core(w.(ledger := Prune(w.ledger, now)))
    ensures forall id :: id in w.effects && w.effects[id].status == EffectHold ==>
              Exact(Prune(w.ledger, now), BindingOf(w.effects[id]))
  {
    var ledger := Prune(w.ledger, now);
    forall j | j in ledger ensures LedgerRowOk(ledger, j) {
      assert LedgerRowOk(w.ledger, j);
    }
    forall id | id in w.effects ensures BridgeOk(ledger, w.consumed, w.effects[id]) {
      assert BridgeOk(w.ledger, w.consumed, w.effects[id]);
    }
    LedgerMoveKeeps(w, ledger, w.consumed);
  }

  lemma InsertLedgerKeeps(w: World, b: Binding)
    requires Core(w) && Unseen(w.ledger, b)
    requires forall id :: id in w.effects && w.effects[id].status == EffectConfirmed ==> BindingOf(w.effects[id]) != b
    ensures Core(w.(ledger := w.ledger[b.jti := LedgerRow(b, LedgerPrepared, None)]))
    ensures Exact(w.ledger[b.jti := LedgerRow(b, LedgerPrepared, None)], b)
  {
    var ledger := w.ledger[b.jti := LedgerRow(b, LedgerPrepared, None)];
    forall j | j in w.ledger ensures j != b.jti {
      assert LedgerRowOk(w.ledger, j);
    }
    forall j | j in ledger ensures LedgerRowOk(ledger, j) {
      if j != b.jti {
        assert LedgerRowOk(w.ledger, j);
      }
    }
    forall id | id in w.effects ensures BridgeOk(ledger, w.consumed, w.effects[id]) {
      assert BridgeOk(w.ledger, w.consumed, w.effects[id]);
    }
    LedgerMoveKeeps(w, ledger, w.consumed);
  }

  lemma PrepareKeeps(w: World, b: Binding, now: int, taken: bool)
    requires Core(w) && PrepareStep(w, b, now, taken).Done?
    requires forall x :: x in w.effects && w.effects[x].status == EffectConfirmed ==> BindingOf(w.effects[x]) != b
    ensures var u := PrepareStep(w, b, now, taken).world;
            Core(u) && u.effects == w.effects && u.heads == w.heads && Says(u, b, LedgerPrepared)
  {
    PruneKeeps(w, now);
    var w1 := w.(ledger := Prune(w.ledger, now));
    if Unseen(w1.ledger, b) {
      InsertLedgerKeeps(w1, b);
    } else {
      assert LedgerRowOk(w1.ledger, b.jti);
    }
  }

  predicate Uses(row: EffectRow, b: Binding) {
    row.status in {EffectHold, EffectConfirmed} && BindingOf(row) == b
  }

  /** The one row of binding `b` is rewritten without changing the binding. */
  lemma RewriteKeeps(w: World, b: Binding, row: LedgerRow, consumed: set<Binding>)
    requires Core(w) && Exact(w.ledger, b) && row.binding == b
    requires row.state == LedgerPrepared ==> row.journalTerminalAt.None?
    requires consumed == (if row.state == LedgerConsumed then w.consumed + {b} else w.consumed)
    requires w.ledger[b.jti].state == LedgerConsumed ==> row.state == LedgerConsumed
    requires forall id :: id in w.effects && Uses(w.effects[id], b) ==>
               BridgeOk(w.ledger[b.jti := row], consumed, w.effects[id])
    ensures Core(w.(ledger := w.ledger[b.jti := row], consumed := consumed))
  {
    var ledger := w.ledger[b.jti := row];
    forall j | j in ledger ensures LedgerRowOk(ledger, j) {
      assert LedgerRowOk(w.ledger, j);
    }
    forall id | id in w.effects && w.effects[id].status in {EffectHold, EffectConfirmed}
      ensures BridgeOk(ledger, consumed, w.effects[id])
    {
      assert BridgeOk(w.ledger, w.consumed, w.effects[id]);
    }
    LedgerMoveKeeps(w, ledger, consumed);
  }

  lemma SettleKeeps(w: World, b: Binding, to: LedgerState)
    requires Core(w) && to != LedgerPrepared && SettleStep(w, b, to).Done?
    ensures Core(SettleStep(w, b, to).world)
  {
    if w.ledger[b.jti].state == LedgerPrepared {
      assert LedgerRowOk(w.ledger, b.jti);
      forall id | id in w.effects && Uses(w.effects[id], b)
        ensures w.effects[id].status == EffectHold
      {
        assert BridgeOk(w.ledger, w.consumed, w.effects[id]);
      }
      RewriteKeeps(w, b, w.ledger[b.jti].(state := to), if to == LedgerConsumed then w.consumed + {b} else w.consumed);
    }
  }

  lemma MarkKeeps(w: World, b: Binding, now: int)
    requires Core(w) && MarkStep(w, b, now).Done?
    requires forall id :: id in w.effects && w.effects[id].status == EffectHold ==> BindingOf(w.effects[id]) != b
    ensures Core(MarkStep(w, b, now).world)
  {
    if w.ledger[b.jti].journalTerminalAt.None? {
      var row := w.ledger[b.jti].(journalTerminalAt := Some(now));
      forall id | id in w.effects && Uses(w.effects[id], b)
        ensures BridgeOk(w.ledger[b.jti := row], w.consumed, w.effects[id])
      {
        assert BridgeOk(w.ledger, w.consumed, w.effects[id]);
      }
      assert LedgerRowOk(w.ledger, b.jti);
      assert row.state == LedgerConsumed ==> b in w.consumed;
      assert row.state == LedgerConsumed ==> w.consumed + {b} == w.consumed;
      RewriteKeeps(w, b, row, w.consumed);
    }
  }
}
