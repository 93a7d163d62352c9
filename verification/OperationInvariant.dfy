/** What every step of the operation journal keeps, and what none of them ever takes back. */
module OperationInvariant {
  import opened Foundation
  import opened OperationTypes
  import opened OperationSteps

  // ---- slots ----------------------------------------------------------------------------------

  predicate Unwritten(s: Slot) {
    && s.payload.None? && s.observedAt.None? && s.committedAt.None? && s.effect.None? && s.batch.None? && s.result.None?
  }

  predicate ReadDone(i: Issuance, s: Slot) {
    && s.kind != CloudflareBatch && s.request.Some? && s.payload.Some? && s.observedAt.Some? && s.batch.None?
    && i.issuedAt <= s.observedAt.value <= i.freshUntil
  }

  /** A delegated direct slot: its effect is rebuilt from its own payload, and its times are in order. */
  predicate DirectOk(i: Issuance, k: nat, s: Slot) {
    && ReadDone(i, s) && s.effect.Some? && s.committedAt == Some(s.effect.value.committedAt)
    && s.effect.value.evidence == EvidenceAt(k) && s.payload == Some(s.effect.value.payload)
    && s.observedAt.value <= s.committedAt.value <= i.freshUntil
  }

  predicate BatchOk(o: nat, i: Issuance, s: Slot) {
    && s.request.None? && s.payload.None? && s.observedAt.None? && s.effect.None?
    && s.batch.Some? && s.committedAt == Some(s.batch.value.committedAt) && ParsesBatch(s.batch.value, o, i)
  }

  ghost predicate SlotOk(o: nat, i: Issuance, k: nat, s: Slot) {
    match s.state
    case SlotPrepared => s.request.None? && Unwritten(s)
    case ReadInFlight => s.kind != CloudflareBatch && s.request.Some? && Unwritten(s)
    case SlotFrozen => ReadDone(i, s) && s.committedAt.None? && s.effect.None? && s.result.None?
    case Delegated =>
      && s.result.None?
      && match s.kind { case ReadOnly => false case DirectWorm => DirectOk(i, k, s) case CloudflareBatch => BatchOk(o, i, s) }
    case SlotConfirmed =>
      && s.result.Some?
      && match s.kind
         case ReadOnly => false
         case DirectWorm => DirectOk(i, k, s) && ParsesDirect(s.result.value, s.effect.value)
         case CloudflareBatch => BatchOk(o, i, s) && ParsesBatchResult(s.result.value, s.batch.value)
  }

  ghost predicate SlotsOk(sequence: nat, o: nat, i: Issuance) {
    && |i.slots| == |Roster(sequence)|
    && forall k {:trigger SlotOk(o, i, k, i.slots[k])} :: 0 <= k < |i.slots| ==>
         i.slots[k].kind == Roster(sequence)[k] && SlotOk(o, i, k, i.slots[k])
  }

  predicate Recorded(s: IssuanceState) {
    s == RECORD_APPENDED || s == CONFIRMED
  }

  predicate Final(s: IssuanceState) {
    s == READY_TO_APPEND || Recorded(s)
  }

  /** The record time is the seal time of the batch result. */
  predicate RecordTimeOk(sequence: nat, i: Issuance)
    requires |i.slots| == |Roster(sequence)|
  {
    var s := i.slots[BatchSlot(sequence)];
    if s.state == SlotConfirmed && s.result.Some? && s.result.value.BatchResult?
    then i.recordAt == Some(s.result.value.sealedAt) else i.recordAt.None?
  }

  predicate StateOk(sequence: nat, i: Issuance) {
    match i.state
    case RESERVED => !HasDispatch(i.slots)
    case COLLECTING => !HasDispatch(i.slots)
    case EXPIRED_UNDISPATCHED => !HasDispatch(i.slots)
    case EFFECTS_PENDING => HasDispatch(i.slots)
    case DISPATCHED_HOLD => HasDispatch(i.slots)
    case READY_TO_APPEND => RecordReady(sequence, i)
    case RECORD_APPENDED => RecordReady(sequence, i)
    case CONFIRMED => RecordReady(sequence, i)
  }

  ghost predicate IssuanceOk(sequence: nat, o: nat, i: Issuance) {
    && i.freshUntil == i.issuedAt + FRESHNESS_MS
    && SlotsOk(sequence, o, i)
    && RecordTimeOk(sequence, i)
    && StateOk(sequence, i)
    && (i.recordResult.Some? <==> i.state == CONFIRMED)
  }

  // ---- the attempt ----------------------------------------------------------------------------

  /** The record exists exactly with a recorded issuance, and is pinned exactly with a confirmed one. */
  predicate RecordOk(a: Attempt) {
    if a.issuances == [] then a.intent.None? && a.record.None?
    else
      var o := |a.issuances|;
      var i := At(a, o);
      && a.intent == Some(if i.state == CONFIRMED then IntentConfirmed else IntentOpen)
      && (a.record.Some? <==> Recorded(i.state))
      && (a.record.Some? ==>
            && i.recordAt.Some?
            && a.record.value.core == Core(o, i.slots, i.recordAt.value)
            && (a.record.value.worm.Some? <==> i.state == CONFIRMED))
      && (i.state == CONFIRMED && i.recordResult.Some? && a.record.Some? ==>
            && ParsesRecord(i.recordResult.value, a.record.value.core)
            && a.record.value.worm == Some(i.recordResult.value.worm))
  }

  ghost predicate Inv(a: Attempt) {
    && a.sequence <= 1
    && (forall p {:trigger IssuanceOk(a.sequence, p + 1, a.issuances[p])} {:trigger a.issuances[p]} ::
          0 <= p < |a.issuances| ==> IssuanceOk(a.sequence, p + 1, a.issuances[p]))
    && (forall p :: 0 <= p < |a.issuances| - 1 ==> a.issuances[p].state == EXPIRED_UNDISPATCHED)
    && RecordOk(a)
  }

  lemma NewAttemptInv(sequence: nat)
    requires sequence <= 1
    ensures Inv(NewAttempt(sequence))
  {
  }

  lemma NewIssuanceOk(sequence: nat, o: nat, now: int)
    requires sequence <= 1
    ensures IssuanceOk(sequence, o, NewIssuance(sequence, now))
  {
  }

  /** The current issuance is rewritten without entering or leaving the recorded states. */
  lemma PutKeeps(a: Attempt, o: nat, i: Issuance)
    requires Inv(a) && IsLatest(a, o) && IssuanceOk(a.sequence, o, i)
    requires !Recorded(At(a, o).state) && !Recorded(i.state)
    ensures Inv(Put(a, o, i))
  {
    var b := Put(a, o, i);
    forall p | 0 <= p < |b.issuances| ensures IssuanceOk(b.sequence, p + 1, b.issuances[p]) {
      if p != o - 1 {
        assert IssuanceOk(a.sequence, p + 1, a.issuances[p]);
      }
    }
  }

  // ---- one slot -------------------------------------------------------------------------------

  /** Slots are judged by the issuance's times only, so the rest of the issuance may change around them. */
  lemma SlotFollows(o: nat, i: Issuance, j: Issuance, k: nat, s: Slot)
    requires SlotOk(o, i, k, s) && j.issuedAt == i.issuedAt && j.freshUntil == i.freshUntil
    ensures SlotOk(o, j, k, s)
  {
  }

  lemma SlotsFollow(sequence: nat, o: nat, i: Issuance, j: Issuance)
    requires SlotsOk(sequence, o, i) && j.issuedAt == i.issuedAt && j.freshUntil == i.freshUntil && j.slots == i.slots
    ensures SlotsOk(sequence, o, j)
  {
    forall k | 0 <= k < |j.slots| ensures j.slots[k].kind == Roster(sequence)[k] && SlotOk(o, j, k, j.slots[k]) {
      assert SlotOk(o, i, k, i.slots[k]);
      SlotFollows(o, i, j, k, j.slots[k]);
    }
  }

  lemma PutSlotKeeps(sequence: nat, o: nat, i: Issuance, j: Issuance, k: nat, s: Slot)
    requires SlotsOk(sequence, o, i) && k < |i.slots| && s.kind == i.slots[k].kind && SlotOk(o, i, k, s)
    requires j.issuedAt == i.issuedAt && j.freshUntil == i.freshUntil && j.slots == i.slots[k := s]
    ensures SlotsOk(sequence, o, j)
  {
    forall q | 0 <= q < |j.slots| ensures j.slots[q].kind == Roster(sequence)[q] && SlotOk(o, j, q, j.slots[q]) {
      assert SlotOk(o, i, q, i.slots[q]);
      SlotFollows(o, i, j, q, j.slots[q]);
    }
  }

  lemma DispatchIff(slots: seq<Slot>, k: nat, s: Slot)
    requires k < |slots| && (IsDispatched(slots[k]) ==> IsDispatched(s))
    ensures HasDispatch(slots) || IsDispatched(s) <==> HasDispatch(slots[k := s])
  {
    var after := slots[k := s];
    if IsDispatched(s) {
      assert IsDispatched(after[k]);
    } else if HasDispatch(slots) {
      var q :| 0 <= q < |slots| && IsDispatched(slots[q]);
      assert IsDispatched(after[q]);
    }
  }

  lemma ExpireOk(sequence: nat, o: nat, i: Issuance)
    requires IssuanceOk(sequence, o, i)
    ensures IssuanceOk(sequence, o, Expire(i))
  {
    SlotsFollow(sequence, o, i, Expire(i));
  }

  lemma ExpireKeeps(a: Attempt, o: nat)
    requires Inv(a) && IsLatest(a, o) && !Recorded(At(a, o).state)
    ensures Inv(Put(a, o, Expire(At(a, o))))
  {
    ExpireOk(a.sequence, o, At(a, o));
    PutKeeps(a, o, Expire(At(a, o)));
  }

  // ---- steps ----------------------------------------------------------------------------------

  lemma ReserveKeeps(a: Attempt, now: int)
    requires Inv(a)
    ensures Inv(ReserveStep(a, now))
  {
    NewIssuanceOk(a.sequence, 1, now);
  }

  lemma ReissueKeeps(a: Attempt, seen: nat, now: int)
    requires Inv(a)
    ensures Inv(ReissueStep(a, seen, now))
  {
    var b := ReissueStep(a, seen, now);
    if b != a {
      var i := At(a, seen);
      assert IssuanceOk(a.sequence, seen, i);
      NewIssuanceOk(a.sequence, seen + 1, now);
      NotDispatched(a.sequence, seen, i);
      SlotsFollow(a.sequence, seen, i, i.(state := EXPIRED_UNDISPATCHED));
      forall p | 0 <= p < |b.issuances| ensures IssuanceOk(b.sequence, p + 1, b.issuances[p]) {
        if p < seen - 1 {
          assert IssuanceOk(a.sequence, p + 1, a.issuances[p]);
        }
      }
    }
  }

  lemma FinalIsDispatched(sequence: nat, i: Issuance)
    requires sequence <= 1 && RecordReady(sequence, i)
    ensures HasDispatch(i.slots)
  {
    assert IsDispatched(i.slots[BatchSlot(sequence)]);
  }

  /** What the reissue policy calls undispatched really is: a read-only slot can never be dispatched. */
  lemma NotDispatched(sequence: nat, o: nat, i: Issuance)
    requires sequence <= 1 && IssuanceOk(sequence, o, i) && Reissuable(i)
    ensures !HasDispatch(i.slots)
    ensures i.state in {RESERVED, COLLECTING, EXPIRED_UNDISPATCHED}
  {
    forall k | 0 <= k < |i.slots| ensures !IsDispatched(i.slots[k]) {
      assert SlotOk(o, i, k, i.slots[k]);
    }
    if Final(i.state) {
      FinalIsDispatched(sequence, i);
    }
  }

  lemma GateKeeps(a: Attempt, o: nat, now: int, observed: int)
    requires Inv(a)
    ensures Inv(GateStep(a, o, now, observed))
  {
    if Collectable(a, o) {
      ExpireKeeps(a, o);
    }
  }

  /** A slot that is not dispatched is rewritten as not dispatched; the issuance may start collecting. */
  lemma ReadMoveKeeps(a: Attempt, o: nat, k: nat, s: Slot, state: IssuanceState)
    requires Inv(a) && Collectable(a, o) && k < |At(a, o).slots|
    requires var i := At(a, o);
             && s.kind == i.slots[k].kind != CloudflareBatch && SlotOk(o, i, k, s)
             && !IsDispatched(i.slots[k]) && !IsDispatched(s)
             && (state == i.state || state == Collect(i.state))
    ensures Inv(Put(a, o, PutSlot(At(a, o), k, s).(state := state)))
  {
    var i := At(a, o);
    assert IssuanceOk(a.sequence, o, i);
    var j := PutSlot(i, k, s).(state := state);
    PutSlotKeeps(a.sequence, o, i, j, k, s);
    DispatchIff(i.slots, k, s);
    assert SlotOk(o, i, BatchSlot(a.sequence), i.slots[BatchSlot(a.sequence)]);
    PutKeeps(a, o, j);
  }

  lemma PrepareReadKeeps(a: Attempt, o: nat, k: nat, request: Name, now: int, inner: int)
    requires Inv(a)
    ensures Inv(PrepareReadStep(a, o, k, request, now, inner).attempt)
  {
    GateKeeps(a, o, now, now);
    var b := PrepareReadStep(a, o, k, request, now, inner).attempt;
    if Passes(a, o, now, now) && b != a {
      var i := At(a, o);
      assert IssuanceOk(a.sequence, o, i);
      assert SlotOk(o, i, k, i.slots[k]);
      ReadMoveKeeps(a, o, k, i.slots[k].(request := Some(request), state := ReadInFlight), Collect(i.state));
    }
  }

  lemma FreezeReadKeeps(a: Attempt, o: nat, k: nat, payload: Name, observed: int, now: int, inner: int)
    requires Inv(a)
    ensures Inv(FreezeReadStep(a, o, k, payload, observed, now, inner))
  {
    GateKeeps(a, o, now, observed);
    var b := FreezeReadStep(a, o, k, payload, observed, now, inner);
    if Passes(a, o, now, observed) && b != a {
      var i := At(a, o);
      assert IssuanceOk(a.sequence, o, i);
      assert SlotOk(o, i, k, i.slots[k]);
      ReadMoveKeeps(a, o, k, i.slots[k].(payload := Some(payload), observedAt := Some(observed), state := SlotFrozen), i.state);
    }
  }

  /** A slot becomes, or stays, dispatched in an issuance that is not recorded. */
  lemma DispatchMoveKeeps(a: Attempt, o: nat, k: nat, s: Slot, j: Issuance)
    requires Inv(a) && IsLatest(a, o) && k < |At(a, o).slots|
    requires At(a, o).state in {RESERVED, COLLECTING, EFFECTS_PENDING, DISPATCHED_HOLD}
    requires var i := At(a, o);
             && s.kind == i.slots[k].kind && SlotOk(o, i, k, s) && IsDispatched(s)
             && j == i.(slots := i.slots[k := s], state := Pending(i.state), recordAt := j.recordAt)
    requires RecordTimeOk(a.sequence, j)
    ensures Inv(Put(a, o, j))
  {
    var i := At(a, o);
    assert IssuanceOk(a.sequence, o, i);
    PutSlotKeeps(a.sequence, o, i, j, k, s);
    DispatchIff(i.slots, k, s);
    PutKeeps(a, o, j);
  }

  /** In a final issuance every effect slot is confirmed, so no delegation can be new. */
  lemma FinalSlot(a: Attempt, o: nat, k: nat)
    requires Inv(a) && IsLatest(a, o) && Final(At(a, o).state) && k < |At(a, o).slots|
    ensures SlotDone(At(a, o).slots[k])
  {
    assert IssuanceOk(a.sequence, o, At(a, o));
  }

  lemma DelegateKeeps(a: Attempt, o: nat, k: nat, committed: int, pins: DirectPins, now: int)
    requires Inv(a)
    ensures Inv(DelegateStep(a, o, k, committed, pins, now).attempt)
  {
    var b := DelegateStep(a, o, k, committed, pins, now).attempt;
    if b != a {
      var i := At(a, o);
      assert IssuanceOk(a.sequence, o, i);
      assert SlotOk(o, i, k, i.slots[k]);
      if Final(i.state) {
        FinalSlot(a, o, k);
      }
      ExpireKeeps(a, o);
      if now <= i.freshUntil && committed <= i.freshUntil {
        var s := SealDirect(i.slots[k], DirectEffect(EvidenceAt(k), i.slots[k].payload.value, committed, pins));
        DispatchMoveKeeps(a, o, k, s, PutSlot(i, k, s).(state := Pending(i.state)));
      }
    }
  }

  lemma DelegateBatchKeeps(a: Attempt, o: nat, r: BatchRequest, now: int)
    requires Inv(a)
    ensures Inv(DelegateBatchStep(a, o, r, now).attempt)
  {
    var b := DelegateBatchStep(a, o, r, now).attempt;
    if b != a {
      var i := At(a, o);
      var k := BatchSlot(a.sequence);
      assert IssuanceOk(a.sequence, o, i);
      assert SlotOk(o, i, k, i.slots[k]);
      if Final(i.state) {
        FinalSlot(a, o, k);
      }
      ExpireKeeps(a, o);
      if now <= i.freshUntil && r.committedAt <= i.freshUntil {
        var s := SealBatch(i.slots[k], r);
        DispatchMoveKeeps(a, o, k, s, PutSlot(i, k, s).(state := Pending(i.state)));
      }
    }
  }

  lemma SealFourSlots(a: Attempt, o: nat, r: BatchRequest, now: int)
    requires Inv(a) && a.sequence == 0 && Current(a, o, false) && ParsesBatch(r, o, At(a, o)) && PayloadsRead(At(a, o).slots)
    requires forall k :: 1 <= k <= 3 ==>
               && At(a, o).slots[k].state == SlotFrozen
               && Chronological(At(a, o), At(a, o).slots[k], r.committedAt, now)
    requires At(a, o).slots[4].state == SlotPrepared
    ensures var i := At(a, o); SlotsOk(0, o, i.(slots := SealFour(i.slots, r), state := Pending(i.state)))
  {
    var i := At(a, o);
    assert IssuanceOk(a.sequence, o, i);
    var j := i.(slots := SealFour(i.slots, r), state := Pending(i.state));
    forall k | 0 <= k < |j.slots| ensures j.slots[k].kind == Roster(0)[k] && SlotOk(o, j, k, j.slots[k]) {
      assert SlotOk(o, i, k, i.slots[k]);
    }
  }

  lemma DelegateAllKeeps(a: Attempt, o: nat, r: BatchRequest, now: int)
    requires Inv(a)
    ensures Inv(DelegateAllStep(a, o, r, now).attempt)
  {
    var b := DelegateAllStep(a, o, r, now).attempt;
    if b != a {
      var i := At(a, o);
      assert IssuanceOk(a.sequence, o, i);
      assert a.sequence == 0;
      if Final(i.state) {
        FinalSlot(a, o, 4);
      }
      ExpireKeeps(a, o);
      if now <= i.freshUntil && r.committedAt <= i.freshUntil {
        SealFourSlots(a, o, r, now);
        var j := i.(slots := SealFour(i.slots, r), state := Pending(i.state));
        assert IsDispatched(j.slots[4]);
        PutKeeps(a, o, j);
      }
    }
  }

  lemma ConfirmDirectKeeps(a: Attempt, o: nat, k: nat, r: SlotResult)
    requires Inv(a)
    ensures Inv(ConfirmDirectStep(a, o, k, r))
  {
    var b := ConfirmDirectStep(a, o, k, r);
    if b != a {
      var i := At(a, o);
      assert IssuanceOk(a.sequence, o, i);
      assert SlotOk(o, i, k, i.slots[k]);
      if Final(i.state) {
        FinalSlot(a, o, k);
      }
      assert IsDispatched(i.slots[k]);
      var s := i.slots[k].(result := Some(r), state := SlotConfirmed);
      assert PutSlot(i, k, s) == i.(slots := i.slots[k := s], state := Pending(i.state), recordAt := i.recordAt);
      DispatchMoveKeeps(a, o, k, s, PutSlot(i, k, s));
    }
  }

  lemma ConfirmBatchKeeps(a: Attempt, o: nat, r: SlotResult)
    requires Inv(a)
    ensures Inv(ConfirmBatchStep(a, o, r))
  {
    var b := ConfirmBatchStep(a, o, r);
    if b != a {
      var i := At(a, o);
      var k := BatchSlot(a.sequence);
      assert IssuanceOk(a.sequence, o, i);
      assert SlotOk(o, i, k, i.slots[k]);
      if Final(i.state) {
        FinalSlot(a, o, k);
      }
      assert IsDispatched(i.slots[k]);
      var s := i.slots[k].(result := Some(r), state := SlotConfirmed);
      var j := PutSlot(i, k, s).(recordAt := Some(r.sealedAt));
      assert j == i.(slots := i.slots[k := s], state := Pending(i.state), recordAt := j.recordAt);
      DispatchMoveKeeps(a, o, k, s, j);
    }
  }

  lemma ReadyKeeps(a: Attempt, o: nat)
    requires Inv(a)
    ensures Inv(ReadyStep(a, o))
  {
    var b := ReadyStep(a, o);
    if b != a {
      assert IssuanceOk(a.sequence, o, At(a, o));
      SlotsFollow(a.sequence, o, At(a, o), At(b, o));
      PutKeeps(a, o, At(b, o));
    }
  }

  /** The current issuance and the record move together. */
  lemma RecordMoveKeeps(a: Attempt, b: Attempt, o: nat)
    requires Inv(a) && IsLatest(a, o) && Final(At(a, o).state) && IsLatest(b, o)
    requires b.sequence == a.sequence && b.issuances == a.issuances[o - 1 := At(b, o)]
    requires At(b, o) == At(a, o).(state := At(b, o).state, recordResult := At(b, o).recordResult)
    requires Recorded(At(b, o).state) && (At(b, o).recordResult.Some? <==> At(b, o).state == CONFIRMED)
    requires RecordOk(b)
    ensures Inv(b)
  {
    assert IssuanceOk(a.sequence, o, At(a, o));
    SlotsFollow(a.sequence, o, At(a, o), At(b, o));
    assert IssuanceOk(b.sequence, o, At(b, o));
    forall p | 0 <= p < |b.issuances| ensures IssuanceOk(b.sequence, p + 1, b.issuances[p]) {
      if p != o - 1 {
        assert IssuanceOk(a.sequence, p + 1, a.issuances[p]);
      }
    }
  }

  lemma AppendKeeps(a: Attempt, o: nat, core: Core)
    requires Inv(a)
    ensures Inv(AppendStep(a, o, core))
  {
    var b := AppendStep(a, o, core);
    if b != a {
      assert IssuanceOk(a.sequence, o, At(a, o));
      RecordMoveKeeps(a, b, o);
    }
  }

  lemma NextRecordKeeps(a: Attempt, o: nat)
    requires Inv(a)
    ensures NextRecordStep(a, o).attempt == a
  {
    if InRecordState(a, o) {
      assert IssuanceOk(a.sequence, o, At(a, o));
    }
  }

  lemma ConfirmRecordKeeps(a: Attempt, o: nat, r: RecordResult)
    requires Inv(a)
    ensures Inv(ConfirmRecordStep(a, o, r))
  {
    var b := ConfirmRecordStep(a, o, r);
    if b != a {
      assert IssuanceOk(a.sequence, o, At(a, o));
      RecordMoveKeeps(a, b, o);
    }
  }

  lemma ApplyKeeps(a: Attempt, op: Op)
    requires Inv(a)
    ensures Inv(Apply(a, op).attempt)
  {
    match op
    case Reserve(now) => ReserveKeeps(a, now);
    case Reissue(seen, now) => ReissueKeeps(a, seen, now);
    case Gate(o, now, observed) => GateKeeps(a, o, now, observed);
    case PrepareRead(o, k, request, now, inner) => PrepareReadKeeps(a, o, k, request, now, inner);
    case FreezeRead(o, k, payload, observed, now, inner) => FreezeReadKeeps(a, o, k, payload, observed, now, inner);
    case Delegate(o, k, committed, pins, now) => DelegateKeeps(a, o, k, committed, pins, now);
    case DelegateBatch(o, r, now) => DelegateBatchKeeps(a, o, r, now);
    case DelegateAll(o, r, now) => DelegateAllKeeps(a, o, r, now);
    case ConfirmDirect(o, k, r) => ConfirmDirectKeeps(a, o, k, r);
    case ConfirmBatch(o, r) => ConfirmBatchKeeps(a, o, r);
    case Ready(o) => ReadyKeeps(a, o);
    case Append(o, core) => AppendKeeps(a, o, core);
    case NextRecord(o) => NextRecordKeeps(a, o);
    case ConfirmRecord(o, r) => ConfirmRecordKeeps(a, o, r);
  }

  lemma {:induction false} RunKeeps(a: Attempt, ops: seq<Op>)
    requires Inv(a)
    ensures Inv(Run(a, ops).attempt)
    decreases |ops|
  {
    if ops != [] {
      ApplyKeeps(a, ops[0]);
      RunKeeps(Apply(a, ops[0]).attempt, ops[1..]);
    }
  }
}
