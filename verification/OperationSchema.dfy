/**
 * The tables behind the operation journal. Whatever the steps write, the tables accept. Two unique columns,
 * the object key of an effect and the object version of a result, are why two of the steps test for them.
 */
module OperationSchema {
  import opened Foundation
  import opened OperationTypes
  import opened OperationSteps
  import opened OperationInvariant

  // ---- columns --------------------------------------------------------------------------------

  /** `provider_request_bytes` holds the read request of a direct slot and the batch request of the batch. */
  predicate HasRequest(s: Slot) {
    s.request.Some? || s.batch.Some?
  }

  /** `worm_digest`, `worm_key`, `worm_version_id` and `worm_retention_until` are written together. */
  function Version(s: Slot): Option<Name> {
    if s.result.Some? && s.result.value.DirectResult? then Some(s.result.value.version) else None
  }

  predicate NothingSealed(s: Slot) {
    s.committedAt.None? && s.effect.None? && s.batch.None? && s.result.None? && Version(s).None?
  }

  predicate Sealed(s: Slot) {
    && HasRequest(s) && s.committedAt.Some?
    && match s.kind
       case DirectWorm => s.payload.Some? && s.observedAt.Some? && s.effect.Some? && s.batch.None?
       case CloudflareBatch => s.payload.None? && s.observedAt.None? && s.batch.Some? && s.effect.None?
       case ReadOnly => false
  }

  /** The row checks of one slot at its index. */
  predicate SlotChecks(k: nat, s: Slot) {
    && (match s.kind case ReadOnly => k == 0 case DirectWorm => 1 <= k <= 3 case CloudflareBatch => k == 0 || k == 4)
    && (s.kind == ReadOnly ==> s.effect.None? && s.batch.None? && Version(s).None?)
    && (s.kind == ReadOnly ==> s.state in {SlotPrepared, ReadInFlight, SlotFrozen})
    && (s.kind == DirectWorm ==> s.batch.None?)
    && (s.kind == CloudflareBatch ==> s.effect.None?)
    && match s.state
       case SlotPrepared => !HasRequest(s) && s.payload.None? && s.observedAt.None? && NothingSealed(s)
       case ReadInFlight => HasRequest(s) && s.payload.None? && s.observedAt.None? && NothingSealed(s)
       case SlotFrozen =>
         s.kind != CloudflareBatch && HasRequest(s) && s.payload.Some? && s.observedAt.Some? && NothingSealed(s)
       case Delegated => Sealed(s) && s.result.None? && Version(s).None?
       case SlotConfirmed => Sealed(s) && s.result.Some? && (s.kind == DirectWorm <==> Version(s).Some?)
  }

  predicate IssuanceChecks(i: Issuance) {
    && (Final(i.state) ==> i.recordAt.Some?)
    && (i.state == CONFIRMED <==> i.recordResult.Some?)
    && forall k :: 0 <= k < |i.slots| ==> SlotChecks(k, i.slots[k])
  }

  /** An issuance covered by the index that allows one of them in an attempt. */
  predicate Live(s: IssuanceState) {
    s != CONFIRMED && s != EXPIRED_UNDISPATCHED
  }

  predicate SlotsApart(s: Slot, t: Slot) {
    && (s.effect.Some? && t.effect.Some? ==> !SameKey(s.effect.value, t.effect.value))
    && (s.batch.Some? && t.batch.Some? ==> s.batch != t.batch)
    && (Version(s).Some? && Version(t).Some? ==> Version(s) != Version(t))
  }

  /** Everything the tables demand of the rows of one attempt. */
  ghost predicate TablesHold(a: Attempt) {
    && |a.issuances| <= MAX_ORDINAL
    && (forall p :: 0 <= p < |a.issuances| ==> IssuanceChecks(a.issuances[p]))
    && (forall p, q :: 0 <= p < q < |a.issuances| ==> !Live(a.issuances[p].state) || !Live(a.issuances[q].state))
    && forall p, q, k, l :: 0 <= p < |a.issuances| && 0 <= q < |a.issuances| && 0 <= k < |a.issuances[p].slots|
                            && 0 <= l < |a.issuances[q].slots| && (p != q || k != l) ==>
         SlotsApart(a.issuances[p].slots[k], a.issuances[q].slots[l])
  }

  // ---- checks follow from the invariant -------------------------------------------------------

  lemma RowChecks(sequence: nat, o: nat, i: Issuance)
    requires sequence <= 1 && IssuanceOk(sequence, o, i)
    ensures IssuanceChecks(i)
  {
    forall k | 0 <= k < |i.slots| ensures SlotChecks(k, i.slots[k]) {
      assert SlotOk(o, i, k, i.slots[k]);
    }
  }

  // ---- unique columns -------------------------------------------------------------------------

  predicate Apart(slots: seq<Slot>) {
    forall k, l :: 0 <= k < l < |slots| ==> SlotsApart(slots[k], slots[l])
  }

  /** What the invariant does not say: ordinals are bounded, and the current roster repeats no key or version. */
  predicate Unrepeated(a: Attempt) {
    |a.issuances| <= MAX_ORDINAL && (a.issuances == [] || Apart(a.issuances[|a.issuances| - 1].slots))
  }

  predicate SameColumns(slots: seq<Slot>, after: seq<Slot>) {
    && |slots| == |after|
    && forall k :: 0 <= k < |slots| ==>
         after[k].effect == slots[k].effect && after[k].batch == slots[k].batch && Version(after[k]) == Version(slots[k])
  }

  lemma UnchangedApart(slots: seq<Slot>, after: seq<Slot>)
    requires Apart(slots) && SameColumns(slots, after)
    ensures Apart(after)
  {
    forall k, l | 0 <= k < l < |after| ensures SlotsApart(after[k], after[l]) {
      assert SlotsApart(slots[k], slots[l]);
    }
  }

  lemma PutApart(slots: seq<Slot>, k: nat, s: Slot)
    requires Apart(slots) && k < |slots|
    requires forall q :: 0 <= q < |slots| && q != k ==> SlotsApart(slots[q], s)
    ensures Apart(slots[k := s])
  {
    var after := slots[k := s];
    forall p, q | 0 <= p < q < |after| ensures SlotsApart(after[p], after[q]) {
      assert SlotsApart(slots[p], slots[q]);
    }
  }

  lemma EmptyApart(sequence: nat)
    ensures Apart(EmptyRoster(sequence))
  {
  }

  /** Steps that write no effect, batch or version. */
  predicate Quiet(op: Op) {
    op.Gate? || op.PrepareRead? || op.FreezeRead? || op.ConfirmBatch? || op.Ready? || op.Append?
    || op.NextRecord? || op.ConfirmRecord?
  }

  lemma FreezeQuiet(a: Attempt, o: nat, k: nat, payload: Name, observed: int, now: int, inner: int)
    requires Inv(a) && IsLatest(a, o)
    ensures var b := FreezeReadStep(a, o, k, payload, observed, now, inner);
            IsLatest(b, o) && SameColumns(At(a, o).slots, At(b, o).slots)
  {
    if k < |At(a, o).slots| {
      assert IssuanceOk(a.sequence, o, At(a, o));
      assert SlotOk(o, At(a, o), k, At(a, o).slots[k]);
    }
  }

  lemma ConfirmBatchQuiet(a: Attempt, o: nat, r: SlotResult)
    requires Inv(a) && IsLatest(a, o)
    ensures var b := ConfirmBatchStep(a, o, r);
            IsLatest(b, o) && SameColumns(At(a, o).slots, At(b, o).slots)
  {
    assert IssuanceOk(a.sequence, o, At(a, o));
    assert SlotOk(o, At(a, o), BatchSlot(a.sequence), At(a, o).slots[BatchSlot(a.sequence)]);
  }

  lemma QuietSlot(a: Attempt, op: Op)
    requires Inv(a) && Quiet(op) && a.issuances != []
    ensures |Apply(a, op).attempt.issuances| == |a.issuances|
    ensures SameColumns(At(a, |a.issuances|).slots, At(Apply(a, op).attempt, |a.issuances|).slots)
  {
    hide Inv;
    var o := |a.issuances|;
    match op
    case FreezeRead(p, k, payload, observed, now, inner) =>
      if p == o {
        FreezeQuiet(a, o, k, payload, observed, now, inner);
      }
    case ConfirmBatch(p, r) =>
      if p == o {
        ConfirmBatchQuiet(a, o, r);
      }
    case _ =>
  }

  lemma DelegateUnrepeated(a: Attempt, o: nat, k: nat, committed: int, pins: DirectPins, now: int)
    requires Inv(a) && Unrepeated(a)
    ensures Unrepeated(DelegateStep(a, o, k, committed, pins, now).attempt)
  {
    if DelegateStep(a, o, k, committed, pins, now).grants != {} && !IsDispatched(At(a, o).slots[k]) {
      var i := At(a, o);
      assert IssuanceOk(a.sequence, o, i);
      assert SlotOk(o, i, k, i.slots[k]);
      var e := DirectEffect(EvidenceAt(k), i.slots[k].payload.value, committed, pins);
      forall q | 0 <= q < |i.slots| && q != k ensures SlotsApart(i.slots[q], SealDirect(i.slots[k], e)) {
        assert SlotOk(o, i, q, i.slots[q]);
        assert !KeyAt(a.issuances[o - 1].slots[q], e);
      }
      PutApart(i.slots, k, SealDirect(i.slots[k], e));
    }
  }

  lemma DelegateBatchUnrepeated(a: Attempt, o: nat, r: BatchRequest, now: int)
    requires Inv(a) && Unrepeated(a)
    ensures Unrepeated(DelegateBatchStep(a, o, r, now).attempt)
  {
    var k := BatchSlot(a.sequence);
    if DelegateBatchStep(a, o, r, now).grants != {} && !IsDispatched(At(a, o).slots[k]) {
      var i := At(a, o);
      assert IssuanceOk(a.sequence, o, i);
      assert SlotOk(o, i, k, i.slots[k]);
      forall q | 0 <= q < |i.slots| && q != k ensures SlotsApart(i.slots[q], SealBatch(i.slots[k], r)) {
        assert SlotOk(o, i, q, i.slots[q]);
      }
      PutApart(i.slots, k, SealBatch(i.slots[k], r));
    }
  }

  lemma SealFourApart(a: Attempt, o: nat, r: BatchRequest)
    requires Inv(a) && IsLatest(a, o) && a.sequence == 0 && PayloadsRead(At(a, o).slots)
    requires At(a, o).slots[4].state == SlotPrepared && forall k :: 1 <= k <= 3 ==> At(a, o).slots[k].state == SlotFrozen
    requires !SameKey(EffectFor(At(a, o).slots, 1, r), EffectFor(At(a, o).slots, 2, r))
    ensures Apart(SealFour(At(a, o).slots, r))
  {
    var i := At(a, o);
    assert IssuanceOk(a.sequence, o, i);
    forall k | 0 <= k < 5 ensures SlotOk(o, i, k, i.slots[k]) {
    }
  }

  lemma DelegateAllUnrepeated(a: Attempt, o: nat, r: BatchRequest, now: int)
    requires Inv(a) && Unrepeated(a)
    ensures Unrepeated(DelegateAllStep(a, o, r, now).attempt)
  {
    hide KeyTaken, Chronological, Apart, SealFour, OpenCalls;
    var b := DelegateAllStep(a, o, r, now).attempt;
    if b != a && now <= At(a, o).freshUntil && r.committedAt <= At(a, o).freshUntil {
      assert IssuanceOk(a.sequence, o, At(a, o));
      SealFourApart(a, o, r);
    }
  }

  lemma ConfirmDirectUnrepeated(a: Attempt, o: nat, k: nat, r: SlotResult)
    requires Inv(a) && Unrepeated(a)
    ensures Unrepeated(ConfirmDirectStep(a, o, k, r))
  {
    if ConfirmDirectStep(a, o, k, r) != a {
      var i := At(a, o);
      var s := i.slots[k].(result := Some(r), state := SlotConfirmed);
      forall q | 0 <= q < |i.slots| && q != k ensures SlotsApart(i.slots[q], s) {
        assert if q < k then SlotsApart(i.slots[q], i.slots[k]) else SlotsApart(i.slots[k], i.slots[q]);
      }
      PutApart(i.slots, k, s);
    }
  }

  lemma ApplyUnrepeated(a: Attempt, op: Op)
    requires Inv(a) && Unrepeated(a)
    ensures Unrepeated(Apply(a, op).attempt)
  {
    hide Inv, Apart;
    if Quiet(op) {
      if a.issuances != [] {
        QuietSlot(a, op);
        UnchangedApart(At(a, |a.issuances|).slots, At(Apply(a, op).attempt, |a.issuances|).slots);
      }
    } else {
      EmptyApart(a.sequence);
      match op
      case Reserve(now) =>
      case Reissue(seen, now) =>
      case Delegate(o, k, committed, pins, now) => DelegateUnrepeated(a, o, k, committed, pins, now);
      case DelegateBatch(o, r, now) => DelegateBatchUnrepeated(a, o, r, now);
      case DelegateAll(o, r, now) => DelegateAllUnrepeated(a, o, r, now);
      case ConfirmDirect(o, k, r) => ConfirmDirectUnrepeated(a, o, k, r);
      case _ =>
    }
  }

  lemma {:induction false} RunUnrepeated(a: Attempt, ops: seq<Op>)
    requires Inv(a) && Unrepeated(a)
    ensures Unrepeated(Run(a, ops).attempt)
    decreases |ops|
  {
    hide Inv, Unrepeated, Apply;
    if ops != [] {
      ApplyKeeps(a, ops[0]);
      ApplyUnrepeated(a, ops[0]);
      RunUnrepeated(Apply(a, ops[0]).attempt, ops[1..]);
    }
  }

  /** Effects and batches stand in the current issuance only. */
  lemma EarlierUnsealed(a: Attempt, p: nat, k: nat)
    requires Inv(a) && p < |a.issuances| - 1 && k < |a.issuances[p].slots|
    ensures var s := a.issuances[p].slots[k]; s.effect.None? && s.batch.None? && Version(s).None?
  {
    assert IssuanceOk(a.sequence, p + 1, a.issuances[p]);
    assert SlotOk(p + 1, a.issuances[p], k, a.issuances[p].slots[k]);
    assert !IsDispatched(a.issuances[p].slots[k]);
  }

  lemma UnrepeatedHolds(a: Attempt)
    requires Inv(a) && Unrepeated(a)
    ensures TablesHold(a)
  {
    var last := |a.issuances| - 1;
    forall p | 0 <= p < |a.issuances| ensures IssuanceChecks(a.issuances[p]) {
      RowChecks(a.sequence, p + 1, a.issuances[p]);
    }
    forall p, q, k, l | 0 <= p < |a.issuances| && 0 <= q < |a.issuances| && 0 <= k < |a.issuances[p].slots|
                        && 0 <= l < |a.issuances[q].slots| && (p != q || k != l)
      ensures SlotsApart(a.issuances[p].slots[k], a.issuances[q].slots[l])
    {
      if p < last {
        EarlierUnsealed(a, p, k);
      } else if q < last {
        EarlierUnsealed(a, q, l);
      } else {
        assert if k < l then SlotsApart(a.issuances[p].slots[k], a.issuances[p].slots[l])
          else SlotsApart(a.issuances[p].slots[l], a.issuances[p].slots[k]);
      }
    }
  }

  /**
   * After any run, and so before and after every statement of one: each row passes its checks, one issuance at
   * most is live, and no object key, batch or object version stands twice in the slots of the attempt.
   */
  lemma TablesAlwaysHold(sequence: nat, ops: seq<Op>)
    requires sequence <= 1
    ensures TablesHold(Run(NewAttempt(sequence), ops).attempt)
  {
    NewAttemptInv(sequence);
    RunKeeps(NewAttempt(sequence), ops);
    RunUnrepeated(NewAttempt(sequence), ops);
    UnrepeatedHolds(Run(NewAttempt(sequence), ops).attempt);
  }
}
