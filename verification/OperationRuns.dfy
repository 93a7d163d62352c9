/** Safety, durability of authorised calls, and restartability of the operation journal over whole runs. */
module OperationRuns {
  import opened Foundation
  import opened Clock
  import opened OperationTypes
  import opened OperationSteps
  import opened OperationInvariant

  // ---- nothing is taken back ------------------------------------------------------------------

  /** A slot field, once written, stays. */
  predicate SlotEvolves(a: Slot, b: Slot) {
    && b.kind == a.kind
    && Keeps(a.request, b.request) && Keeps(a.payload, b.payload) && Keeps(a.observedAt, b.observedAt)
    && Keeps(a.committedAt, b.committedAt) && Keeps(a.effect, b.effect) && Keeps(a.batch, b.batch)
    && Keeps(a.result, b.result)
    && (IsDispatched(a) ==> IsDispatched(b))
    && (a.state == SlotFrozen ==> b.state == SlotFrozen || IsDispatched(b))
    && (a.state == SlotConfirmed ==> b == a)
  }

  predicate SlotsEvolve(a: seq<Slot>, b: seq<Slot>) {
    |a| == |b| && forall k :: 0 <= k < |a| ==> SlotEvolves(a[k], b[k])
  }

  /** READY_TO_APPEND and what follows never regress, and an expired issuance stays expired. */
  predicate StateReaches(a: IssuanceState, b: IssuanceState) {
    match a
    case EXPIRED_UNDISPATCHED => b == EXPIRED_UNDISPATCHED
    case READY_TO_APPEND => Final(b)
    case RECORD_APPENDED => Recorded(b)
    case CONFIRMED => b == CONFIRMED
    case _ => true
  }

  predicate IssuanceEvolves(a: Issuance, b: Issuance) {
    && b.issuedAt == a.issuedAt && b.freshUntil == a.freshUntil
    && Keeps(a.recordAt, b.recordAt) && Keeps(a.recordResult, b.recordResult)
    && StateReaches(a.state, b.state)
    && SlotsEvolve(a.slots, b.slots)
  }

  predicate SameCore(a: Option<Record>, b: Option<Record>) {
    a.Some? ==> b.Some? && b.value.core == a.value.core && Keeps(a.value.worm, b.value.worm)
  }

  predicate Evolves(a: Attempt, b: Attempt) {
    && b.sequence == a.sequence
    && |a.issuances| <= |b.issuances|
    && (forall p {:trigger b.issuances[p]} :: 0 <= p < |a.issuances| ==> IssuanceEvolves(a.issuances[p], b.issuances[p]))
    && SameCore(a.record, b.record)
  }

  lemma EvolvesTransitive(a: Attempt, b: Attempt, c: Attempt)
    requires Evolves(a, b) && Evolves(b, c)
    ensures Evolves(a, c)
  {
    forall p | 0 <= p < |a.issuances| ensures IssuanceEvolves(a.issuances[p], c.issuances[p]) {
      IssuancesCompose(a.issuances[p], b.issuances[p], c.issuances[p]);
    }
  }

  lemma IssuancesCompose(a: Issuance, b: Issuance, c: Issuance)
    requires IssuanceEvolves(a, b) && IssuanceEvolves(b, c)
    ensures IssuanceEvolves(a, c)
  {
    forall k | 0 <= k < |a.slots| ensures SlotEvolves(a.slots[k], c.slots[k]) {
      assert SlotEvolves(a.slots[k], b.slots[k]) && SlotEvolves(b.slots[k], c.slots[k]);
    }
  }

  lemma SlotsReflexive(slots: seq<Slot>)
    ensures SlotsEvolve(slots, slots)
  {
  }

  lemma EvolvesReflexive(a: Attempt)
    ensures Evolves(a, a)
  {
  }

  lemma PutEvolves(a: Attempt, o: nat, j: Issuance)
    requires IsLatest(a, o) && IssuanceEvolves(At(a, o), j)
    ensures Evolves(a, Put(a, o, j))
  {
  }

  lemma ExpireEvolves(a: Attempt, o: nat)
    requires IsLatest(a, o) && !Final(At(a, o).state)
    ensures Evolves(a, Put(a, o, Expire(At(a, o))))
  {
    PutEvolves(a, o, Expire(At(a, o)));
  }

  lemma SlotMoveEvolves(a: Attempt, o: nat, k: nat, s: Slot, j: Issuance)
    requires IsLatest(a, o) && k < |At(a, o).slots| && SlotEvolves(At(a, o).slots[k], s)
    requires j.slots == At(a, o).slots[k := s]
    requires j.issuedAt == At(a, o).issuedAt && j.freshUntil == At(a, o).freshUntil
    requires Keeps(At(a, o).recordAt, j.recordAt) && Keeps(At(a, o).recordResult, j.recordResult)
    requires StateReaches(At(a, o).state, j.state)
    ensures Evolves(a, Put(a, o, j))
  {
    PutEvolves(a, o, j);
  }

  lemma ReissueEvolves(a: Attempt, seen: nat, now: int)
    requires Inv(a)
    ensures Evolves(a, ReissueStep(a, seen, now))
  {
    EvolvesReflexive(a);
    var b := ReissueStep(a, seen, now);
    if b != a {
      var i := At(a, seen);
      assert IssuanceOk(a.sequence, seen, i);
      NotDispatched(a.sequence, seen, i);
      hide Inv, IssuanceOk, Reissuable, SlotsEvolve, NewIssuance;
      forall p | 0 <= p < |a.issuances| ensures IssuanceEvolves(a.issuances[p], b.issuances[p]) {
        SlotsReflexive(a.issuances[p].slots);
        assert b.issuances[p] == if p == seen - 1 then i.(state := EXPIRED_UNDISPATCHED) else a.issuances[p];
      }
    }
  }

  lemma GateEvolves(a: Attempt, o: nat, now: int, observed: int)
    ensures Evolves(a, GateStep(a, o, now, observed))
  {
    if Collectable(a, o) {
      ExpireEvolves(a, o);
    }
  }

  lemma PrepareReadEvolves(a: Attempt, o: nat, k: nat, request: Name, now: int, inner: int)
    requires Inv(a)
    ensures Evolves(a, PrepareReadStep(a, o, k, request, now, inner).attempt)
  {
    GateEvolves(a, o, now, now);
    var b := PrepareReadStep(a, o, k, request, now, inner).attempt;
    if Passes(a, o, now, now) && b != a {
      assert IssuanceOk(a.sequence, o, At(a, o));
      assert SlotOk(o, At(a, o), k, At(a, o).slots[k]);
      SlotMoveEvolves(a, o, k, At(b, o).slots[k], At(b, o));
    }
  }

  lemma FreezeReadEvolves(a: Attempt, o: nat, k: nat, payload: Name, observed: int, now: int, inner: int)
    requires Inv(a)
    ensures Evolves(a, FreezeReadStep(a, o, k, payload, observed, now, inner))
  {
    GateEvolves(a, o, now, observed);
    var b := FreezeReadStep(a, o, k, payload, observed, now, inner);
    if Passes(a, o, now, observed) && b != a {
      assert IssuanceOk(a.sequence, o, At(a, o));
      assert SlotOk(o, At(a, o), k, At(a, o).slots[k]);
      SlotMoveEvolves(a, o, k, At(b, o).slots[k], At(b, o));
    }
  }

  lemma DelegateEvolves(a: Attempt, o: nat, k: nat, committed: int, pins: DirectPins, now: int)
    requires Inv(a)
    ensures Evolves(a, DelegateStep(a, o, k, committed, pins, now).attempt)
  {
    hide Evolves, KeyTaken, Chronological;
    EvolvesReflexive(a);
    if DelegateStep(a, o, k, committed, pins, now).attempt != a {
      var i := At(a, o);
      assert IssuanceOk(a.sequence, o, i);
      assert SlotOk(o, i, k, i.slots[k]);
      if Final(i.state) {
        FinalSlot(a, o, k);
      } else {
        ExpireEvolves(a, o);
        var s := SealDirect(i.slots[k], DirectEffect(EvidenceAt(k), i.slots[k].payload.value, committed, pins));
        if i.slots[k].state == SlotFrozen && i.state != DISPATCHED_HOLD {
          SlotMoveEvolves(a, o, k, s, PutSlot(i, k, s).(state := Pending(i.state)));
        }
      }
    }
  }

  lemma DelegateBatchEvolves(a: Attempt, o: nat, r: BatchRequest, now: int)
    requires Inv(a)
    ensures Evolves(a, DelegateBatchStep(a, o, r, now).attempt)
  {
    hide Evolves;
    EvolvesReflexive(a);
    var k := BatchSlot(a.sequence);
    if Current(a, o, true) && k < |At(a, o).slots| {
      var i := At(a, o);
      assert IssuanceOk(a.sequence, o, i);
      assert SlotOk(o, i, k, i.slots[k]);
      if Final(i.state) {
        FinalSlot(a, o, k);
      } else {
        ExpireEvolves(a, o);
        if i.slots[k].state == SlotPrepared && i.state != DISPATCHED_HOLD {
          var s := SealBatch(i.slots[k], r);
          SlotMoveEvolves(a, o, k, s, PutSlot(i, k, s).(state := Pending(i.state)));
        }
      }
    }
  }

  lemma SealFourEvolves(o: nat, i: Issuance, r: BatchRequest)
    requires PayloadsRead(i.slots) && i.slots[4].state == SlotPrepared
    requires forall k :: 1 <= k <= 3 ==> i.slots[k].state == SlotFrozen
    requires forall k :: 0 <= k < 5 ==> SlotOk(o, i, k, i.slots[k])
    ensures SlotsEvolve(i.slots, SealFour(i.slots, r))
  {
    forall k | 0 <= k < 5 ensures SlotEvolves(i.slots[k], SealFour(i.slots, r)[k]) {
      assert SlotOk(o, i, k, i.slots[k]);
    }
  }

  lemma DelegateAllEvolves(a: Attempt, o: nat, r: BatchRequest, now: int)
    requires Inv(a)
    ensures Evolves(a, DelegateAllStep(a, o, r, now).attempt)
  {
    hide Evolves, SlotsEvolve, SealFour, Chronological, KeyTaken, OpenCalls;
    EvolvesReflexive(a);
    if DelegateAllStep(a, o, r, now).attempt != a {
      var i := At(a, o);
      assert IssuanceOk(a.sequence, o, i);
      if Final(i.state) {
        FinalSlot(a, o, 4);
      } else {
        ExpireEvolves(a, o);
      }
      if now <= i.freshUntil && r.committedAt <= i.freshUntil {
        SealFourEvolves(o, i, r);
        PutEvolves(a, o, i.(slots := SealFour(i.slots, r), state := Pending(i.state)));
      }
    }
  }

  lemma ConfirmDirectEvolves(a: Attempt, o: nat, k: nat, r: SlotResult)
    requires Inv(a)
    ensures Evolves(a, ConfirmDirectStep(a, o, k, r))
  {
    var b := ConfirmDirectStep(a, o, k, r);
    if b != a {
      assert IssuanceOk(a.sequence, o, At(a, o));
      assert SlotOk(o, At(a, o), k, At(a, o).slots[k]);
      SlotMoveEvolves(a, o, k, At(b, o).slots[k], At(b, o));
    }
  }

  lemma ConfirmBatchEvolves(a: Attempt, o: nat, r: SlotResult)
    requires Inv(a)
    ensures Evolves(a, ConfirmBatchStep(a, o, r))
  {
    var b := ConfirmBatchStep(a, o, r);
    if b != a {
      var k := BatchSlot(a.sequence);
      assert IssuanceOk(a.sequence, o, At(a, o));
      assert SlotOk(o, At(a, o), k, At(a, o).slots[k]);
      SlotMoveEvolves(a, o, k, At(b, o).slots[k], At(b, o));
    }
  }

  lemma ReadyEvolves(a: Attempt, o: nat)
    requires Inv(a)
    ensures Evolves(a, ReadyStep(a, o))
  {
    hide Inv, RecordReady, Evolves, SlotEvolves;
    EvolvesReflexive(a);
    if ReadyStep(a, o) != a {
      assert SlotsEvolve(At(a, o).slots, At(ReadyStep(a, o), o).slots) by {
        SlotsReflexive(At(a, o).slots);
      }
      PutEvolves(a, o, At(ReadyStep(a, o), o));
    }
  }

  lemma AppendEvolves(a: Attempt, o: nat, core: Core)
    requires Inv(a)
    ensures Evolves(a, AppendStep(a, o, core))
  {
    hide Inv, SlotEvolves, RosterDone;
    EvolvesReflexive(a);
    if AppendStep(a, o, core) != a {
      SlotsReflexive(At(a, o).slots);
      PutEvolves(a, o, At(AppendStep(a, o, core), o));
    }
  }

  lemma ConfirmRecordEvolves(a: Attempt, o: nat, r: RecordResult)
    requires Inv(a)
    ensures Evolves(a, ConfirmRecordStep(a, o, r))
  {
    EvolvesReflexive(a);
    if ConfirmRecordStep(a, o, r) != a {
      assert IssuanceOk(a.sequence, o, At(a, o));
      hide Inv, IssuanceOk, SlotEvolves, ParsesRecord;
      SlotsReflexive(At(a, o).slots);
      PutEvolves(a, o, At(ConfirmRecordStep(a, o, r), o));
    }
  }

  lemma ApplyEvolves(a: Attempt, op: Op)
    requires Inv(a)
    ensures Evolves(a, Apply(a, op).attempt)
  {
    hide Inv;
    match op
    case Reserve(now) =>
    case Reissue(seen, now) => ReissueEvolves(a, seen, now);
    case Delegate(o, k, committed, pins, now) => DelegateEvolves(a, o, k, committed, pins, now);
    case DelegateBatch(o, r, now) => DelegateBatchEvolves(a, o, r, now);
    case DelegateAll(o, r, now) => DelegateAllEvolves(a, o, r, now);
    case ConfirmDirect(o, k, r) => ConfirmDirectEvolves(a, o, k, r);
    case ConfirmBatch(o, r) => ConfirmBatchEvolves(a, o, r);
    case Ready(o) => ReadyEvolves(a, o);
    case Append(o, core) => AppendEvolves(a, o, core);
    case NextRecord(o) => NextRecordKeeps(a, o);
    case ConfirmRecord(o, r) => ConfirmRecordEvolves(a, o, r);
    case Gate(o, now, observed) => GateEvolves(a, o, now, observed);
    case PrepareRead(o, k, request, now, inner) => PrepareReadEvolves(a, o, k, request, now, inner);
    case FreezeRead(o, k, payload, observed, now, inner) => FreezeReadEvolves(a, o, k, payload, observed, now, inner);
  }

  lemma {:induction false} RunEvolves(a: Attempt, ops: seq<Op>)
    requires Inv(a)
    ensures Evolves(a, Run(a, ops).attempt)
    decreases |ops|
  {
    hide Inv, Apply;
    if ops != [] {
      ApplyKeeps(a, ops[0]);
      ApplyEvolves(a, ops[0]);
      RunEvolves(Apply(a, ops[0]).attempt, ops[1..]);
      EvolvesTransitive(a, Apply(a, ops[0]).attempt, Run(Apply(a, ops[0]).attempt, ops[1..]).attempt);
    }
  }

  // ---- one dispatched ordinal -----------------------------------------------------------------

  ghost predicate OneDispatched(a: Attempt) {
    && (forall p :: 0 <= p < |a.issuances| && HasDispatch(a.issuances[p].slots) ==> p == |a.issuances| - 1)
    && (forall p :: 0 <= p < |a.issuances| - 1 ==> a.issuances[p].state == EXPIRED_UNDISPATCHED)
    && (forall p :: 0 <= p < |a.issuances| ==>
          match a.issuances[p].state
          case EXPIRED_UNDISPATCHED => !HasDispatch(a.issuances[p].slots)
          case RESERVED => !HasDispatch(a.issuances[p].slots)
          case COLLECTING => !HasDispatch(a.issuances[p].slots)
          case _ => HasDispatch(a.issuances[p].slots))
  }

  lemma InvOneDispatched(a: Attempt)
    requires Inv(a)
    ensures OneDispatched(a)
  {
    forall p | 0 <= p < |a.issuances|
      ensures a.issuances[p].state in {EXPIRED_UNDISPATCHED, RESERVED, COLLECTING} <==> !HasDispatch(a.issuances[p].slots)
    {
      assert IssuanceOk(a.sequence, p + 1, a.issuances[p]);
      if Final(a.issuances[p].state) {
        FinalIsDispatched(a.sequence, a.issuances[p]);
      }
    }
  }

  /** At most the latest ordinal is ever dispatched, and an expired one never gains an effect. */
  lemma DispatchedOrdinal(sequence: nat, before: seq<Op>, after: seq<Op>)
    requires sequence <= 1
    ensures OneDispatched(Run(NewAttempt(sequence), before).attempt)
    ensures var a := Run(NewAttempt(sequence), before).attempt;
            Evolves(a, Run(a, after).attempt) && OneDispatched(Run(a, after).attempt)
  {
    NewAttemptInv(sequence);
    RunKeeps(NewAttempt(sequence), before);
    var a := Run(NewAttempt(sequence), before).attempt;
    InvOneDispatched(a);
    RunKeeps(a, after);
    RunEvolves(a, after);
    InvOneDispatched(Run(a, after).attempt);
  }

  // ---- authorised calls are durable -----------------------------------------------------------

  /** What a call carries is stored in its slot or in the record. */
  predicate Durable(a: Attempt, g: Grant) {
    match g
    case ReadGrant(o, k, request) =>
      1 <= o <= |a.issuances| && k < |a.issuances[o - 1].slots| && a.issuances[o - 1].slots[k].request == Some(request)
    case EffectGrant(o, k, e) =>
      1 <= o <= |a.issuances| && k < |a.issuances[o - 1].slots| && a.issuances[o - 1].slots[k].effect == Some(e)
    case BatchGrant(o, r) =>
      && 1 <= o <= |a.issuances| && BatchSlot(a.sequence) < |a.issuances[o - 1].slots|
      && a.issuances[o - 1].slots[BatchSlot(a.sequence)].batch == Some(r)
    case RecordGrant(core) => a.record.Some? && a.record.value.core == core
  }

  lemma DurableStays(a: Attempt, b: Attempt, g: Grant)
    requires Evolves(a, b) && Durable(a, g)
    ensures Durable(b, g)
  {
    match g
    case RecordGrant(core) =>
    case ReadGrant(o, k, _) =>
      assert IssuanceEvolves(a.issuances[o - 1], b.issuances[o - 1]);
      assert SlotEvolves(a.issuances[o - 1].slots[k], b.issuances[o - 1].slots[k]);
    case EffectGrant(o, k, _) =>
      assert IssuanceEvolves(a.issuances[o - 1], b.issuances[o - 1]);
      assert SlotEvolves(a.issuances[o - 1].slots[k], b.issuances[o - 1].slots[k]);
    case BatchGrant(o, _) =>
      assert IssuanceEvolves(a.issuances[o - 1], b.issuances[o - 1]);
      var k := BatchSlot(a.sequence);
      assert SlotEvolves(a.issuances[o - 1].slots[k], b.issuances[o - 1].slots[k]);
  }

  lemma DelegateAllDurable(a: Attempt, o: nat, r: BatchRequest, now: int, g: Grant)
    requires Inv(a) && g in DelegateAllStep(a, o, r, now).grants
    ensures Durable(DelegateAllStep(a, o, r, now).attempt, g)
  {
    hide KeyTaken, Chronological, SameKey, ParsesBatch;
    assert IssuanceOk(a.sequence, o, At(a, o));
  }

  lemma DelegateDurable(a: Attempt, o: nat, k: nat, committed: int, pins: DirectPins, now: int, g: Grant)
    requires g in DelegateStep(a, o, k, committed, pins, now).grants
    ensures Durable(DelegateStep(a, o, k, committed, pins, now).attempt, g)
  {
  }

  lemma DelegateBatchDurable(a: Attempt, o: nat, r: BatchRequest, now: int, g: Grant)
    requires g in DelegateBatchStep(a, o, r, now).grants
    ensures Durable(DelegateBatchStep(a, o, r, now).attempt, g)
  {
  }

  lemma ApplyDurable(a: Attempt, op: Op, g: Grant)
    requires Inv(a) && g in Apply(a, op).grants
    ensures Durable(Apply(a, op).attempt, g)
  {
    hide Inv;
    match op
    case PrepareRead(o, k, request, now, inner) =>
    case Delegate(o, k, committed, pins, now) => DelegateDurable(a, o, k, committed, pins, now, g);
    case DelegateBatch(o, r, now) => DelegateBatchDurable(a, o, r, now, g);
    case DelegateAll(o, r, now) => DelegateAllDurable(a, o, r, now, g);
    case NextRecord(o) =>
    case _ =>
  }

  lemma {:induction false} RunDurable(a: Attempt, ops: seq<Op>, g: Grant)
    requires Inv(a) && g in Run(a, ops).grants
    ensures Durable(Run(a, ops).attempt, g)
    decreases |ops|
  {
    if ops != [] {
      var b := Apply(a, ops[0]).attempt;
      ApplyKeeps(a, ops[0]);
      if g in Run(b, ops[1..]).grants {
        RunDurable(b, ops[1..], g);
      } else {
        ApplyDurable(a, ops[0], g);
        RunEvolves(b, ops[1..]);
        DurableStays(b, Run(b, ops[1..]).attempt, g);
      }
    }
  }

  predicate SamePlace(g: Grant, h: Grant) {
    || (g.ReadGrant? && h.ReadGrant? && g.ordinal == h.ordinal && g.slot == h.slot)
    || (g.EffectGrant? && h.EffectGrant? && g.ordinal == h.ordinal && g.slot == h.slot)
    || (g.BatchGrant? && h.BatchGrant? && g.ordinal == h.ordinal)
    || (g.RecordGrant? && h.RecordGrant?)
  }

  /** Effects are only ever authorised for one ordinal. */
  predicate Remote(g: Grant) {
    g.EffectGrant? || g.BatchGrant? || g.RecordGrant?
  }

  function OrdinalOf(g: Grant): nat {
    match g
    case ReadGrant(o, _, _) => o
    case EffectGrant(o, _, _) => o
    case BatchGrant(o, _) => o
    case RecordGrant(core) => core.ordinal
  }

  /** A stored effect or batch, or the record, belongs to the latest ordinal. */
  lemma RemoteIsLatest(a: Attempt, g: Grant)
    requires Inv(a) && Durable(a, g) && Remote(g)
    ensures OrdinalOf(g) == |a.issuances|
  {
    InvOneDispatched(a);
    if !g.RecordGrant? {
      var i := a.issuances[g.ordinal - 1];
      assert IssuanceOk(a.sequence, g.ordinal, i);
      var k := if g.EffectGrant? then g.slot else BatchSlot(a.sequence);
      assert SlotOk(g.ordinal, i, k, i.slots[k]);
      assert IsDispatched(i.slots[k]);
    }
  }

  lemma DurableOnce(a: Attempt, g: Grant, h: Grant)
    requires Durable(a, g) && Durable(a, h) && SamePlace(g, h)
    ensures g == h
  {
  }

  /**
   * Over any run, with crashes and several callers, every call carries an identity that is durable,
   * each slot and the record are called with one identity only, and effects with one ordinal only.
   */
  lemma CallsAreDurable(sequence: nat, ops: seq<Op>, g: Grant, h: Grant)
    requires sequence <= 1
    requires g in Run(NewAttempt(sequence), ops).grants && h in Run(NewAttempt(sequence), ops).grants
    ensures Durable(Run(NewAttempt(sequence), ops).attempt, g)
    ensures SamePlace(g, h) ==> g == h
    ensures Remote(g) && Remote(h) ==> OrdinalOf(g) == OrdinalOf(h)
  {
    NewAttemptInv(sequence);
    RunKeeps(NewAttempt(sequence), ops);
    RunDurable(NewAttempt(sequence), ops, g);
    RunDurable(NewAttempt(sequence), ops, h);
    var a := Run(NewAttempt(sequence), ops).attempt;
    hide Inv, Run, Durable, SamePlace;
    if SamePlace(g, h) {
      DurableOnce(a, g, h);
    }
    if Remote(g) && Remote(h) {
      RemoteIsLatest(a, g);
      RemoteIsLatest(a, h);
    }
  }

  // ---- all or none, and chronology ------------------------------------------------------------

  /** The steps the runner takes: A0 effects are delegated together, an A1 batch alone. */
  predicate RunnerOp(sequence: nat, op: Op) {
    sequence == 0 ==> !op.Delegate? && !op.DelegateBatch?
  }

  /** Four A0 effects together, all derived from one batch request that the controller read precedes. */
  predicate Together(slots: seq<Slot>) {
    |slots| == 5 ==>
      && (forall k :: 1 <= k <= 4 ==> (IsDispatched(slots[k]) <==> IsDispatched(slots[4])))
      && (IsDispatched(slots[4]) ==>
            && slots[4].batch.Some? && PayloadsRead(slots) && SealMatches(slots, slots[4].batch.value)
            && slots[0].observedAt.Some? && slots[0].observedAt.value <= slots[4].batch.value.committedAt)
  }

  ghost predicate AllTogether(a: Attempt) {
    forall p :: 0 <= p < |a.issuances| ==> Together(a.issuances[p].slots)
  }

  lemma PutTogether(a: Attempt, o: nat, j: Issuance)
    requires AllTogether(a) && IsLatest(a, o) && Together(j.slots)
    ensures AllTogether(Put(a, o, j))
  {
  }

  /** A slot moves without changing whether it is dispatched, nor a time already written. */
  lemma SlotKeepsTogether(slots: seq<Slot>, k: nat, s: Slot)
    requires Together(slots) && k < |slots| && SlotEvolves(slots[k], s)
    requires IsDispatched(slots[k]) <==> IsDispatched(s)
    ensures Together(slots[k := s])
  {
  }

  /** A step that moves one slot without dispatching it leaves the four together. */
  lemma SlotMoveTogether(a: Attempt, b: Attempt, o: nat, k: nat)
    requires AllTogether(a) && IsLatest(a, o) && k < |At(a, o).slots| && Evolves(a, b)
    requires b.issuances == a.issuances[o - 1 := b.issuances[o - 1]]
    requires b.issuances[o - 1].slots == At(a, o).slots[k := b.issuances[o - 1].slots[k]]
    requires IsDispatched(At(a, o).slots[k]) <==> IsDispatched(b.issuances[o - 1].slots[k])
    ensures AllTogether(b)
  {
    assert SlotEvolves(At(a, o).slots[k], b.issuances[o - 1].slots[k]);
    SlotKeepsTogether(At(a, o).slots, k, b.issuances[o - 1].slots[k]);
  }

  lemma GateTogether(a: Attempt, o: nat, now: int, observed: int)
    requires AllTogether(a)
    ensures AllTogether(GateStep(a, o, now, observed))
  {
    var b := GateStep(a, o, now, observed);
    if b != a {
      PutTogether(a, o, At(b, o));
    }
  }

  lemma PrepareReadTogether(a: Attempt, o: nat, k: nat, request: Name, now: int, inner: int)
    requires Inv(a) && AllTogether(a)
    ensures AllTogether(PrepareReadStep(a, o, k, request, now, inner).attempt)
  {
    GateTogether(a, o, now, now);
    PrepareReadEvolves(a, o, k, request, now, inner);
    var b := PrepareReadStep(a, o, k, request, now, inner).attempt;
    if Passes(a, o, now, now) && b != a {
      SlotMoveTogether(a, b, o, k);
    }
  }

  lemma FreezeReadTogether(a: Attempt, o: nat, k: nat, payload: Name, observed: int, now: int, inner: int)
    requires Inv(a) && AllTogether(a)
    ensures AllTogether(FreezeReadStep(a, o, k, payload, observed, now, inner))
  {
    GateTogether(a, o, now, observed);
    FreezeReadEvolves(a, o, k, payload, observed, now, inner);
    var b := FreezeReadStep(a, o, k, payload, observed, now, inner);
    if Passes(a, o, now, observed) && b != a {
      SlotMoveTogether(a, b, o, k);
    }
  }

  lemma ConfirmDirectTogether(a: Attempt, o: nat, k: nat, r: SlotResult)
    requires Inv(a) && AllTogether(a)
    ensures AllTogether(ConfirmDirectStep(a, o, k, r))
  {
    ConfirmDirectEvolves(a, o, k, r);
    if ConfirmDirectStep(a, o, k, r) != a {
      SlotMoveTogether(a, ConfirmDirectStep(a, o, k, r), o, k);
    }
  }

  lemma ConfirmBatchTogether(a: Attempt, o: nat, r: SlotResult)
    requires Inv(a) && AllTogether(a)
    ensures AllTogether(ConfirmBatchStep(a, o, r))
  {
    ConfirmBatchEvolves(a, o, r);
    if ConfirmBatchStep(a, o, r) != a {
      SlotMoveTogether(a, ConfirmBatchStep(a, o, r), o, BatchSlot(a.sequence));
    }
  }

  lemma DelegateBatchTogether(a: Attempt, o: nat, r: BatchRequest, now: int)
    requires Inv(a) && AllTogether(a) && a.sequence == 1
    ensures AllTogether(DelegateBatchStep(a, o, r, now).attempt)
  {
    var b := DelegateBatchStep(a, o, r, now).attempt;
    if b != a {
      assert IssuanceOk(a.sequence, o, At(a, o));
      PutTogether(a, o, At(b, o));
    }
  }

  lemma DelegateTogether(a: Attempt, o: nat, k: nat, committed: int, pins: DirectPins, now: int)
    requires Inv(a) && AllTogether(a) && a.sequence == 1
    ensures AllTogether(DelegateStep(a, o, k, committed, pins, now).attempt)
  {
    var b := DelegateStep(a, o, k, committed, pins, now).attempt;
    if b != a {
      assert IssuanceOk(a.sequence, o, At(a, o));
      PutTogether(a, o, At(b, o));
    }
  }

  lemma DelegateAllTogether(a: Attempt, o: nat, r: BatchRequest, now: int)
    requires Inv(a) && AllTogether(a)
    ensures AllTogether(DelegateAllStep(a, o, r, now).attempt)
  {
    hide Inv;
    var b := DelegateAllStep(a, o, r, now).attempt;
    if b != a {
      PutTogether(a, o, At(b, o));
    }
  }

  lemma SameSlotsTogether(a: Attempt, b: Attempt)
    requires AllTogether(a) && |b.issuances| == |a.issuances|
    requires forall p :: 0 <= p < |a.issuances| ==> b.issuances[p].slots == a.issuances[p].slots
    ensures AllTogether(b)
  {
  }

  lemma IssuesTogether(a: Attempt, seen: nat, now: int)
    requires AllTogether(a)
    ensures AllTogether(ReserveStep(a, now)) && AllTogether(ReissueStep(a, seen, now))
  {
  }

  predicate EvidenceOp(op: Op) {
    op.Reserve? || op.Reissue? || op.Gate? || op.PrepareRead? || op.FreezeRead? || op.ConfirmDirect? || op.ConfirmBatch?
  }

  lemma EvidenceTogether(a: Attempt, op: Op)
    requires Inv(a) && AllTogether(a) && EvidenceOp(op)
    ensures AllTogether(Apply(a, op).attempt)
  {
    match op
    case Reserve(now) => IssuesTogether(a, 0, now);
    case Reissue(seen, now) => IssuesTogether(a, seen, now);
    case Gate(o, now, observed) => GateTogether(a, o, now, observed);
    case PrepareRead(o, k, request, now, inner) => PrepareReadTogether(a, o, k, request, now, inner);
    case FreezeRead(o, k, payload, observed, now, inner) => FreezeReadTogether(a, o, k, payload, observed, now, inner);
    case ConfirmDirect(o, k, r) => ConfirmDirectTogether(a, o, k, r);
    case ConfirmBatch(o, r) => ConfirmBatchTogether(a, o, r);
  }

  predicate DelegationOp(op: Op) {
    op.Delegate? || op.DelegateBatch? || op.DelegateAll?
  }

  lemma DelegationTogether(a: Attempt, op: Op)
    requires Inv(a) && AllTogether(a) && RunnerOp(a.sequence, op) && DelegationOp(op)
    ensures AllTogether(Apply(a, op).attempt)
  {
    match op
    case Delegate(o, k, committed, pins, now) => DelegateTogether(a, o, k, committed, pins, now);
    case DelegateBatch(o, r, now) => DelegateBatchTogether(a, o, r, now);
    case DelegateAll(o, r, now) => DelegateAllTogether(a, o, r, now);
  }

  lemma RecordTogether(a: Attempt, op: Op)
    requires Inv(a) && AllTogether(a) && !EvidenceOp(op) && !DelegationOp(op)
    ensures AllTogether(Apply(a, op).attempt)
  {
    hide Inv, AllTogether, RecordReady, RosterDone, ParsesRecord;
    match op
    case Ready(o) => SameSlotsTogether(a, ReadyStep(a, o));
    case Append(o, core) => SameSlotsTogether(a, AppendStep(a, o, core));
    case NextRecord(o) => NextRecordKeeps(a, o);
    case ConfirmRecord(o, r) => SameSlotsTogether(a, ConfirmRecordStep(a, o, r));
  }

  lemma ApplyTogether(a: Attempt, op: Op)
    requires Inv(a) && AllTogether(a) && RunnerOp(a.sequence, op)
    ensures AllTogether(Apply(a, op).attempt)
  {
    if EvidenceOp(op) {
      EvidenceTogether(a, op);
    } else if DelegationOp(op) {
      DelegationTogether(a, op);
    } else {
      RecordTogether(a, op);
    }
  }

  lemma {:induction false} RunTogether(a: Attempt, ops: seq<Op>)
    requires Inv(a) && AllTogether(a)
    requires forall i :: 0 <= i < |ops| ==> RunnerOp(a.sequence, ops[i])
    ensures AllTogether(Run(a, ops).attempt)
    decreases |ops|
  {
    if ops != [] {
      ApplyKeeps(a, ops[0]);
      ApplyTogether(a, ops[0]);
      ApplyEvolves(a, ops[0]);
      RunTogether(Apply(a, ops[0]).attempt, ops[1..]);
    }
  }

  /** In every run of the runner's steps the four A0 effects are delegated all or none. */
  lemma DelegatedAllOrNone(ops: seq<Op>)
    requires forall i :: 0 <= i < |ops| ==> RunnerOp(0, ops[i])
    ensures AllTogether(Run(NewAttempt(0), ops).attempt)
  {
    NewAttemptInv(0);
    RunTogether(NewAttempt(0), ops);
  }

  /** Issued, observed, committed, fresh-until in order for one direct slot. */
  predicate InOrder(i: Issuance, s: Slot) {
    && s.observedAt.Some? && s.committedAt.Some?
    && i.issuedAt <= s.observedAt.value <= s.committedAt.value <= i.freshUntil
  }

  /** The times of an A0 issuance that has become ready, whichever delegation path it took. */
  predicate DirectInOrder(i: Issuance) {
    && |i.slots| == 5 && i.recordAt.Some?
    && (forall k :: 1 <= k <= 3 ==> InOrder(i, i.slots[k]))
    && (forall k :: 0 <= k < 5 ==> NotAfter(i.slots[k].observedAt, i.recordAt.value)
                                   && NotAfter(i.slots[k].committedAt, i.recordAt.value))
  }

  predicate ControllerFirst(i: Issuance) {
    && |i.slots| == 5 && i.slots[0].observedAt.Some? && i.slots[4].committedAt.Some?
    && i.slots[0].observedAt.value <= i.slots[4].committedAt.value
  }

  lemma ReadyInOrder(a: Attempt, o: nat)
    requires Inv(a) && a.sequence == 0 && IsLatest(a, o) && Final(At(a, o).state)
    ensures DirectInOrder(At(a, o))
    ensures AllTogether(a) ==> ControllerFirst(At(a, o))
  {
    var i := At(a, o);
    assert IssuanceOk(a.sequence, o, i);
    forall k | 1 <= k <= 3 ensures InOrder(i, i.slots[k]) {
      assert SlotOk(o, i, k, i.slots[k]);
    }
    assert IsDispatched(i.slots[4]);
    assert SlotOk(o, i, 4, i.slots[4]);
  }

  /** Whatever reads, retries and expiries came before, a ready A0 issuance has all its times in order. */
  lemma ReadyChronology(ops: seq<Op>)
    ensures var a := Run(NewAttempt(0), ops).attempt;
            a.issuances != [] && Final(At(a, |a.issuances|).state) ==>
              && DirectInOrder(At(a, |a.issuances|))
              && ((forall i :: 0 <= i < |ops| ==> RunnerOp(0, ops[i])) ==> ControllerFirst(At(a, |a.issuances|)))
  {
    NewAttemptInv(0);
    RunKeeps(NewAttempt(0), ops);
    RunEvolves(NewAttempt(0), ops);
    var a := Run(NewAttempt(0), ops).attempt;
    if a.issuances != [] && Final(At(a, |a.issuances|).state) {
      ReadyInOrder(a, |a.issuances|);
      if forall i :: 0 <= i < |ops| ==> RunnerOp(0, ops[i]) {
        RunTogether(NewAttempt(0), ops);
      }
    }
  }

  // ---- the record -----------------------------------------------------------------------------

  ghost predicate RecordMatches(a: Attempt) {
    && (a.record.Some? <==> a.issuances != [] && Recorded(At(a, |a.issuances|).state))
    && (a.record.Some? ==> a.record.value.core.ordinal == |a.issuances|)
    && (a.record.Some? && a.record.value.worm.Some? <==>
          && a.issuances != [] && At(a, |a.issuances|).state == CONFIRMED && a.intent == Some(IntentConfirmed)
          && At(a, |a.issuances|).recordResult.Some?)
    && (a.intent == Some(IntentConfirmed) <==> a.issuances != [] && At(a, |a.issuances|).state == CONFIRMED)
  }

  lemma InvRecordMatches(a: Attempt)
    requires Inv(a)
    ensures RecordMatches(a)
  {
    if a.issuances != [] {
      assert IssuanceOk(a.sequence, |a.issuances|, At(a, |a.issuances|));
    }
  }

  /** A record exists exactly with a recorded issuance, is pinned exactly with a confirmed one, and never changes. */
  lemma RecordLifecycle(sequence: nat, before: seq<Op>, after: seq<Op>)
    requires sequence <= 1
    ensures var a := Run(NewAttempt(sequence), before).attempt;
            var b := Run(a, after).attempt;
            RecordMatches(a) && RecordMatches(b) && SameCore(a.record, b.record)
  {
    NewAttemptInv(sequence);
    RunKeeps(NewAttempt(sequence), before);
    var a := Run(NewAttempt(sequence), before).attempt;
    RunKeeps(a, after);
    RunEvolves(a, after);
    InvRecordMatches(a);
    InvRecordMatches(Run(a, after).attempt);
  }

  // ---- the separate delegation path -----------------------------------------------------------

  /** The batch slot of an A0 issuance is delegated on its own now. */
  predicate SeparatelyDelegated(a: Attempt, o: nat, r: BatchRequest, now: int) {
    && a.sequence == 0 && IsLatest(a, o) && |At(a, o).slots| == 5 && !IsDispatched(At(a, o).slots[4])
    && BatchGrant(o, r) in DelegateBatchStep(a, o, r, now).grants
  }

  function WithController(a: Attempt, o: nat, observed: int): Attempt
    requires IsLatest(a, o) && |At(a, o).slots| == 5
  {
    Put(a, o, PutSlot(At(a, o), 0, At(a, o).slots[0].(observedAt := Some(observed))))
  }

  /** It never looks at when the controller was read: any other time is accepted just as well. */
  lemma SeparatePathIgnoresController(a: Attempt, o: nat, r: BatchRequest, now: int, observed: int)
    requires SeparatelyDelegated(a, o, r, now)
    ensures SeparatelyDelegated(WithController(a, o, observed), o, r, now)
  {
    var b := WithController(a, o, observed);
    assert forall k :: 1 <= k <= 4 ==> At(b, o).slots[k] == At(a, o).slots[k];
  }

  /** What it accepts is in order exactly when the controller was read no later than the batch was committed. */
  lemma SeparatePathInOrder(a: Attempt, o: nat, r: BatchRequest, now: int)
    requires Inv(a) && SeparatelyDelegated(a, o, r, now)
    ensures At(a, o).slots[0].observedAt.Some?
    ensures ControllerFirst(At(DelegateBatchStep(a, o, r, now).attempt, o)) <==>
              At(a, o).slots[0].observedAt.value <= r.committedAt
  {
    assert IssuanceOk(a.sequence, o, At(a, o));
    assert SlotOk(o, At(a, o), 0, At(a, o).slots[0]);
  }

  // ---- restart --------------------------------------------------------------------------------

  /** After any crash the runner finds the same calls open: those of the slots not yet confirmed. */
  lemma RestartFindsOpenCalls(a: Attempt, o: nat, now: int)
    requires Inv(a) && AllTogether(a) && a.sequence == 0 && Current(a, o, true)
    requires |At(a, o).slots| == 5 && IsDispatched(At(a, o).slots[4])
    ensures At(a, o).slots[4].batch.Some? && PayloadsRead(At(a, o).slots)
    ensures var r := At(a, o).slots[4].batch.value;
            DelegateAllStep(a, o, r, now) == Result(a, OpenCalls(o, At(a, o).slots, r))
  {
    var i := At(a, o);
    assert IssuanceOk(a.sequence, o, i);
    assert SlotOk(o, i, 4, i.slots[4]);
    assert Together(i.slots);
  }

  predicate Resumable(a: Attempt, o: nat) {
    && a.sequence == 0 && IsLatest(a, o) && At(a, o).state in {EFFECTS_PENDING, DISPATCHED_HOLD}
    && AllDispatched(At(a, o).slots) && At(a, o).slots[0].state == SlotFrozen
  }

  /** The version a direct slot has, or will get from the answer to its open call. */
  function VersionAt(slots: seq<Slot>, k: nat, r: SlotResult): Name
    requires k < |slots| && r.DirectResult?
  {
    if slots[k].state == SlotConfirmed && slots[k].result.Some? && slots[k].result.value.DirectResult?
    then slots[k].result.value.version else r.version
  }

  /** What the executors answer: acceptable results with three different object versions. */
  predicate DirectAnswers(slots: seq<Slot>, d: seq<SlotResult>) {
    && |slots| == 5 && |d| == 5
    && (forall k :: 1 <= k <= 3 ==> d[k].DirectResult? && slots[k].effect.Some? && ParsesDirect(d[k], slots[k].effect.value))
    && VersionAt(slots, 1, d[1]) != VersionAt(slots, 2, d[2])
    && VersionAt(slots, 1, d[1]) != VersionAt(slots, 3, d[3])
    && VersionAt(slots, 2, d[2]) != VersionAt(slots, 3, d[3])
  }

  /** A direct slot after its answer has been delivered, for the first time or again. */
  function Delivered(s: Slot, r: SlotResult): Slot {
    if s.state == SlotConfirmed then s else s.(result := Some(r), state := SlotConfirmed)
  }

  /** Confirmed versions stay, delivered ones take the place that was kept for them. */
  lemma AnswersStay(slots: seq<Slot>, k: nat, d: seq<SlotResult>)
    requires DirectAnswers(slots, d) && 1 <= k <= 3
    ensures DirectAnswers(slots[k := Delivered(slots[k], d[k])], d)
  {
  }

  lemma VersionFree(slots: seq<Slot>, k: nat, d: seq<SlotResult>)
    requires DirectAnswers(slots, d) && 1 <= k <= 3 && slots[k].state != SlotConfirmed
    requires forall q :: 0 <= q < 5 && slots[q].result.Some? && slots[q].result.value.DirectResult? ==>
               1 <= q <= 3 && slots[q].state == SlotConfirmed
    ensures !VersionTaken(slots, d[k].version, k)
  {
  }

  lemma DeliverDirect(a: Attempt, o: nat, k: nat, d: seq<SlotResult>)
    requires Inv(a) && Resumable(a, o) && 1 <= k <= 3 && DirectAnswers(At(a, o).slots, d)
    ensures var i := At(a, o);
            ConfirmDirectStep(a, o, k, d[k]) == Put(a, o, PutSlot(i, k, Delivered(i.slots[k], d[k])))
  {
    var i := At(a, o);
    assert IssuanceOk(a.sequence, o, i);
    forall q | 0 <= q < 5 ensures SlotOk(o, i, q, i.slots[q]) && i.slots[q].kind == Roster(0)[q] {
    }
    if i.slots[k].state == Delegated {
      VersionFree(i.slots, k, d);
    } else {
      assert i.slots[k := i.slots[k]] == i.slots;
      assert a.issuances[o - 1 := i] == a.issuances;
    }
  }

  /** The record time there is, or will be from the observer's answer. */
  function SealTime(i: Issuance, r: SlotResult): int
    requires r.BatchResult?
  {
    if i.recordAt.Some? then i.recordAt.value else r.sealedAt
  }

  predicate TimesBefore(slots: seq<Slot>, limit: int) {
    forall k :: 0 <= k < |slots| ==> NotAfter(slots[k].observedAt, limit) && NotAfter(slots[k].committedAt, limit)
  }

  ghost predicate BatchAnswer(i: Issuance, r: SlotResult) {
    && |i.slots| == 5 && i.slots[4].batch.Some? && ParsesBatchResult(r, i.slots[4].batch.value)
    && TimesBefore(i.slots, SealTime(i, r))
  }

  /** Every effect is dispatched, and these answers are acceptable for all that are still open. */
  ghost predicate Answerable(a: Attempt, o: nat, d: seq<SlotResult>, r: SlotResult) {
    Inv(a) && Resumable(a, o) && DirectAnswers(At(a, o).slots, d) && BatchAnswer(At(a, o), r)
  }

  /** The answer for one slot arrives. */
  ghost function Deliver(a: Attempt, o: nat, k: nat, d: seq<SlotResult>, r: SlotResult): Attempt
    requires 1 <= k <= 4 && |d| == 5
  {
    if k == 4 then ConfirmBatchStep(a, o, r) else ConfirmDirectStep(a, o, k, d[k])
  }

  /** They arrive in this order; an answer may arrive more than once. */
  ghost function DeliverAll(a: Attempt, o: nat, order: seq<nat>, d: seq<SlotResult>, r: SlotResult): Attempt
    requires |d| == 5 && forall i :: 0 <= i < |order| ==> 1 <= order[i] <= 4
    decreases |order|
  {
    if order == [] then a else DeliverAll(Deliver(a, o, order[0], d, r), o, order[1..], d, r)
  }

  predicate IsDone(a: Attempt, o: nat, k: nat) {
    IsLatest(a, o) && k < |At(a, o).slots| && At(a, o).slots[k].state == SlotConfirmed
  }

  /** What is confirmed stays so, and the record time does not depend on what has arrived so far. */
  ghost predicate Nearer(a: Attempt, b: Attempt, o: nat, r: SlotResult)
    requires r.BatchResult?
  {
    && IsLatest(a, o) && IsLatest(b, o) && SealTime(At(b, o), r) == SealTime(At(a, o), r)
    && forall k :: IsDone(a, o, k) ==> IsDone(b, o, k)
  }

  lemma DirectArrives(a: Attempt, o: nat, k: nat, d: seq<SlotResult>, r: SlotResult)
    requires Answerable(a, o, d, r) && 1 <= k <= 3
    ensures var b := ConfirmDirectStep(a, o, k, d[k]);
            Answerable(b, o, d, r) && Nearer(a, b, o, r) && IsDone(b, o, k)
  {
    DeliverDirect(a, o, k, d);
    ConfirmDirectKeeps(a, o, k, d[k]);
    AnswersStay(At(a, o).slots, k, d);
    hide Inv, DirectAnswers, ConfirmDirectStep;
    var b := ConfirmDirectStep(a, o, k, d[k]);
    forall q | 0 <= q < 5
      ensures At(b, o).slots[q].observedAt == At(a, o).slots[q].observedAt
      ensures At(b, o).slots[q].committedAt == At(a, o).slots[q].committedAt
    {
    }
  }

  lemma DeliverBatch(a: Attempt, o: nat, r: SlotResult)
    requires Inv(a) && Resumable(a, o) && BatchAnswer(At(a, o), r)
    ensures var i := At(a, o);
            var b := ConfirmBatchStep(a, o, r);
            if i.slots[4].state == SlotConfirmed then b == a && i.recordAt.Some?
            else b == Put(a, o, PutSlot(i, 4, Delivered(i.slots[4], r)).(recordAt := Some(SealTime(i, r))))
  {
    var i := At(a, o);
    assert IssuanceOk(a.sequence, o, i);
    assert SlotOk(o, i, 4, i.slots[4]);
  }

  lemma BatchArrives(a: Attempt, o: nat, d: seq<SlotResult>, r: SlotResult)
    requires Answerable(a, o, d, r)
    ensures var b := ConfirmBatchStep(a, o, r);
            Answerable(b, o, d, r) && Nearer(a, b, o, r) && IsDone(b, o, 4)
  {
    DeliverBatch(a, o, r);
    ConfirmBatchKeeps(a, o, r);
    hide Inv, ConfirmBatchStep, ParsesBatchResult, ParsesDirect;
    var i, b := At(a, o), ConfirmBatchStep(a, o, r);
    forall q | 0 <= q < 5
      ensures At(b, o).slots[q].observedAt == i.slots[q].observedAt && At(b, o).slots[q].committedAt == i.slots[q].committedAt
    {
    }
  }

  lemma AnswerArrives(a: Attempt, o: nat, k: nat, d: seq<SlotResult>, r: SlotResult)
    requires Answerable(a, o, d, r) && 1 <= k <= 4
    ensures var b := Deliver(a, o, k, d, r);
            Answerable(b, o, d, r) && Nearer(a, b, o, r) && IsDone(b, o, k)
  {
    assert |d| == 5;
    hide Answerable, Nearer, IsDone;
    if k == 4 {
      BatchArrives(a, o, d, r);
    } else {
      DirectArrives(a, o, k, d, r);
    }
  }

  lemma NearerComposes(a: Attempt, b: Attempt, c: Attempt, o: nat, r: SlotResult)
    requires r.BatchResult? && Nearer(a, b, o, r) && Nearer(b, c, o, r)
    ensures Nearer(a, c, o, r)
  {
    hide IsDone;
  }

  lemma NearerReflexive(a: Attempt, o: nat, d: seq<SlotResult>, r: SlotResult)
    requires Answerable(a, o, d, r)
    ensures |d| == 5 && r.BatchResult? && IsLatest(a, o) && Nearer(a, a, o, r)
  {
    hide Inv, IsDone;
  }

  lemma {:induction false} AnswersArrive(a: Attempt, o: nat, order: seq<nat>, d: seq<SlotResult>, r: SlotResult)
    requires Answerable(a, o, d, r) && forall i :: 0 <= i < |order| ==> 1 <= order[i] <= 4
    ensures var b := DeliverAll(a, o, order, d, r);
            && Answerable(b, o, d, r) && Nearer(a, b, o, r)
            && forall i :: 0 <= i < |order| ==> IsDone(b, o, order[i])
    decreases |order|
  {
    NearerReflexive(a, o, d, r);
    hide Answerable, Deliver, IsDone;
    if order != [] {
      var b := Deliver(a, o, order[0], d, r);
      AnswerArrives(a, o, order[0], d, r);
      AnswersArrive(b, o, order[1..], d, r);
      var c := DeliverAll(b, o, order[1..], d, r);
      NearerComposes(a, b, c, o, r);
      forall i | 0 <= i < |order| ensures IsDone(c, o, order[i]) {
        assert i > 0 ==> order[i] == order[1..][i - 1];
      }
    }
  }

  lemma BatchReady(a: Attempt, o: nat)
    requires Inv(a) && a.sequence == 0 && IsLatest(a, o) && |At(a, o).slots| == 5
    requires At(a, o).slots[0].state == SlotFrozen && forall k :: 1 <= k <= 4 ==> At(a, o).slots[k].state == SlotConfirmed
    requires At(a, o).recordAt.Some? && TimesBefore(At(a, o).slots, At(a, o).recordAt.value)
    ensures RecordReady(0, At(a, o))
  {
    assert IssuanceOk(a.sequence, o, At(a, o));
    forall k | 0 <= k < 5 ensures At(a, o).slots[k].kind == Roster(0)[k] && SlotDone(At(a, o).slots[k]) {
      assert SlotOk(o, At(a, o), k, At(a, o).slots[k]);
    }
  }

  /** From READY_TO_APPEND the record is appended and, with its own answer, confirmed. */
  lemma RecordCompletes(a: Attempt, o: nat, worm: RecordWorm)
    requires Inv(a) && IsLatest(a, o) && At(a, o).state == READY_TO_APPEND
    requires At(a, o).recordAt.Some? && At(a, o).recordAt.value + RETENTION_MS <= worm.retentionUntil
    ensures var core := Core(o, At(a, o).slots, At(a, o).recordAt.value);
            var b := ConfirmRecordStep(AppendStep(a, o, core), o, RecordResult(core, worm, 0));
            b.intent == Some(IntentConfirmed) && b.record == Some(Record(core, Some(worm)))
  {
    assert IssuanceOk(a.sequence, o, At(a, o));
  }

  /** All that is left once the answers are in: readiness, the record and its own answer. */
  ghost function Finish(a: Attempt, o: nat, worm: RecordWorm): Attempt {
    var b := ReadyStep(a, o);
    if !IsLatest(b, o) || At(b, o).recordAt.None? then b
    else
      var core := Core(o, At(b, o).slots, At(b, o).recordAt.value);
      ConfirmRecordStep(AppendStep(b, o, core), o, RecordResult(core, worm, 0))
  }

  lemma ReadyFinishes(a: Attempt, o: nat, worm: RecordWorm)
    requires Inv(a) && Current(a, o, true) && RecordReady(a.sequence, At(a, o))
    requires At(a, o).state in {EFFECTS_PENDING, DISPATCHED_HOLD}
    requires At(a, o).recordAt.value + RETENTION_MS <= worm.retentionUntil
    ensures Finish(a, o, worm).intent == Some(IntentConfirmed)
    ensures Finish(a, o, worm).record.Some? && Finish(a, o, worm).record.value.worm == Some(worm)
  {
    ReadyKeeps(a, o);
    hide Inv;
    RecordCompletes(ReadyStep(a, o), o, worm);
  }

  /**
   * From any state in which the four effects are dispatched, however many of them are confirmed and
   * whether or not the issuance has meanwhile gone to DISPATCHED_HOLD, acceptable answers to what is open
   * confirm the operation, in whatever order they arrive and however often.
   */
  lemma RestartCompletes(a: Attempt, o: nat, order: seq<nat>, d: seq<SlotResult>, r: SlotResult, worm: RecordWorm)
    requires Answerable(a, o, d, r) && forall i :: 0 <= i < |order| ==> 1 <= order[i] <= 4
    requires forall k :: 1 <= k <= 4 ==> IsDone(a, o, k) || k in order
    requires SealTime(At(a, o), r) + RETENTION_MS <= worm.retentionUntil
    ensures var b := Finish(DeliverAll(a, o, order, d, r), o, worm);
            b.intent == Some(IntentConfirmed) && b.record.Some? && b.record.value.worm == Some(worm)
  {
    assert |d| == 5 && IsLatest(a, o) && r.BatchResult?;
    AnswersArrive(a, o, order, d, r);
    hide Answerable, DeliverAll, IsDone, SealTime, Finish;
    var b := DeliverAll(a, o, order, d, r);
    forall k | 1 <= k <= 4 ensures IsDone(b, o, k) {
      if k in order {
        var i :| 0 <= i < |order| && order[i] == k;
        assert IsDone(b, o, order[i]);
      }
    }
    AllAnswered(b, o, d, r);
    ReadyFinishes(b, o, worm);
  }

  lemma AllAnswered(a: Attempt, o: nat, d: seq<SlotResult>, r: SlotResult)
    requires Answerable(a, o, d, r) && forall k :: 1 <= k <= 4 ==> IsDone(a, o, k)
    ensures Inv(a) && Current(a, o, true) && At(a, o).state in {EFFECTS_PENDING, DISPATCHED_HOLD}
    ensures At(a, o).recordAt == Some(SealTime(At(a, o), r)) && RecordReady(a.sequence, At(a, o))
  {
    hide Inv, DirectAnswers, ParsesBatchResult;
    forall k | 1 <= k <= 4 ensures At(a, o).slots[k].state == SlotConfirmed {
      assert IsDone(a, o, k);
    }
    assert IsDone(a, o, 4);
    SealedTime(a, o);
    BatchReady(a, o);
  }

  /** A confirmed batch has fixed the record time. */
  lemma SealedTime(a: Attempt, o: nat)
    requires Inv(a) && IsDone(a, o, BatchSlot(a.sequence))
    ensures At(a, o).recordAt.Some?
  {
    assert IssuanceOk(a.sequence, o, At(a, o));
    assert SlotOk(o, At(a, o), BatchSlot(a.sequence), At(a, o).slots[BatchSlot(a.sequence)]);
  }

  /** The same for A1, whose roster is the batch alone. */
  lemma FinalizeRestartCompletes(a: Attempt, o: nat, r: SlotResult, worm: RecordWorm)
    requires Inv(a) && a.sequence == 1 && IsLatest(a, o) && At(a, o).state in {EFFECTS_PENDING, DISPATCHED_HOLD}
    requires At(a, o).slots[0].batch.Some? && ParsesBatchResult(r, At(a, o).slots[0].batch.value)
    requires TimesBefore(At(a, o).slots, SealTime(At(a, o), r))
    requires SealTime(At(a, o), r) + RETENTION_MS <= worm.retentionUntil
    ensures var b := Finish(ConfirmBatchStep(a, o, r), o, worm);
            b.intent == Some(IntentConfirmed) && b.record.Some? && b.record.value.worm == Some(worm)
  {
    assert IssuanceOk(a.sequence, o, At(a, o));
    assert SlotOk(o, At(a, o), 0, At(a, o).slots[0]);
    ConfirmBatchKeeps(a, o, r);
    hide Inv;
    ReadyFinishes(ConfirmBatchStep(a, o, r), o, worm);
  }
}
