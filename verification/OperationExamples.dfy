/** A concrete run of the operation journal that the separate batch delegation accepts out of order. */
module OperationExamples {
  import opened Foundation
  import opened OperationTypes
  import opened OperationSteps
  import opened OperationInvariant
  import opened OperationRuns

  lemma {:induction false} RunConcat(a: Attempt, xs: seq<Op>, ys: seq<Op>)
    ensures Run(a, xs + ys).attempt == Run(Run(a, xs).attempt, ys).attempt
    decreases |xs|
  {
    hide Apply;
    if xs == [] {
      assert xs + ys == ys;
    } else {
      assert (xs + ys)[1..] == xs[1..] + ys;
      RunConcat(Apply(a, xs[0]).attempt, xs[1..], ys);
    }
  }

  lemma RunMore(a: Attempt, ops: seq<Op>, op: Op)
    ensures Run(a, ops + [op]).attempt == Apply(Run(a, ops).attempt, op).attempt
  {
    hide Apply;
    RunConcat(a, ops, [op]);
    assert Run(Apply(Run(a, ops).attempt, op).attempt, []).attempt == Apply(Run(a, ops).attempt, op).attempt;
  }

  /** An A0 attempt whose only issuance was made at time 0. */
  function Journal(state: IssuanceState, slots: seq<Slot>): Attempt {
    Attempt(0, Some(IntentOpen), [Issuance(0, FRESHNESS_MS, state, None, None, slots)], None)
  }

  function ReadSlot(kind: SlotKind, payload: Name, at: int): Slot {
    EmptySlot(kind).(state := SlotFrozen, request := Some(1), payload := Some(payload), observedAt := Some(at))
  }

  const PINS := DirectPins(1, 2)

  function DelegatedSlot(k: nat): Slot {
    SealDirect(ReadSlot(DirectWorm, k, 10), DirectEffect(EvidenceAt(k), k, 20, PINS))
  }

  /** Preparing and freezing a read. */
  lemma Reads(before: seq<Op>, state: IssuanceState, slots: seq<Slot>, k: nat, at: int)
    requires Run(NewAttempt(0), before).attempt == Journal(state, slots)
    requires |slots| == 5 && k < 4 && slots[k] == EmptySlot(slots[k].kind) && slots[k].kind != CloudflareBatch
    requires state in {RESERVED, COLLECTING, EFFECTS_PENDING} && 0 <= at <= FRESHNESS_MS
    ensures Run(NewAttempt(0), before + [PrepareRead(1, k, 1, at, at)] + [FreezeRead(1, k, k, at, at, at)]).attempt ==
              Journal(Collect(state), slots[k := ReadSlot(slots[k].kind, k, at)])
  {
    RunMore(NewAttempt(0), before, PrepareRead(1, k, 1, at, at));
    RunMore(NewAttempt(0), before + [PrepareRead(1, k, 1, at, at)], FreezeRead(1, k, k, at, at, at));
    var first := Apply(Journal(state, slots), PrepareRead(1, k, 1, at, at)).attempt;
    assert first == Journal(Collect(state), slots[k := EmptySlot(slots[k].kind).(state := ReadInFlight, request := Some(1))]);
    assert slots[k := first.issuances[0].slots[k]][k := ReadSlot(slots[k].kind, k, at)] ==
           slots[k := ReadSlot(slots[k].kind, k, at)];
  }

  /** Delegating a frozen read. */
  lemma Delegates(before: seq<Op>, state: IssuanceState, slots: seq<Slot>, k: nat)
    requires Run(NewAttempt(0), before).attempt == Journal(state, slots)
    requires |slots| == 5 && 1 <= k <= 3 && slots[k] == ReadSlot(DirectWorm, k, 10)
    requires state in {RESERVED, COLLECTING, EFFECTS_PENDING}
    requires forall q :: 0 <= q < 5 && slots[q].effect.Some? ==> slots[q].effect.value.payload != k
    ensures Run(NewAttempt(0), before + [Delegate(1, k, 20, PINS, 20)]).attempt ==
              Journal(Pending(state), slots[k := DelegatedSlot(k)])
  {
    RunMore(NewAttempt(0), before, Delegate(1, k, 20, PINS, 20));
    var a := Journal(state, slots);
    assert !KeyTaken(a, DirectEffect(EvidenceAt(k), k, 20, PINS), 1, k);
  }

  const READ_1: seq<Op> := [Reserve(0)] + [PrepareRead(1, 1, 1, 10, 10)] + [FreezeRead(1, 1, 1, 10, 10, 10)]
  const READ_2: seq<Op> := READ_1 + [PrepareRead(1, 2, 1, 10, 10)] + [FreezeRead(1, 2, 2, 10, 10, 10)]
  const READ_3: seq<Op> := READ_2 + [PrepareRead(1, 3, 1, 10, 10)] + [FreezeRead(1, 3, 3, 10, 10, 10)]

  lemma AllRead()
    ensures Run(NewAttempt(0), READ_3).attempt ==
              Journal(COLLECTING, [EmptySlot(ReadOnly), ReadSlot(DirectWorm, 1, 10), ReadSlot(DirectWorm, 2, 10),
                                   ReadSlot(DirectWorm, 3, 10), EmptySlot(CloudflareBatch)])
  {
    RunMore(NewAttempt(0), [], Reserve(0));
    assert [] + [Reserve(0)] == [Reserve(0)];
    var s := EmptyRoster(0);
    assert s == [EmptySlot(ReadOnly), EmptySlot(DirectWorm), EmptySlot(DirectWorm), EmptySlot(DirectWorm),
                 EmptySlot(CloudflareBatch)];
    Reads([Reserve(0)], RESERVED, s, 1, 10);
    var s1 := s[1 := ReadSlot(DirectWorm, 1, 10)];
    Reads(READ_1, COLLECTING, s1, 2, 10);
    var s2 := s1[2 := ReadSlot(DirectWorm, 2, 10)];
    Reads(READ_2, COLLECTING, s2, 3, 10);
    assert s2[3 := ReadSlot(DirectWorm, 3, 10)] ==
           [EmptySlot(ReadOnly), ReadSlot(DirectWorm, 1, 10), ReadSlot(DirectWorm, 2, 10), ReadSlot(DirectWorm, 3, 10),
            EmptySlot(CloudflareBatch)];
  }

  const SENT_1: seq<Op> := READ_3 + [Delegate(1, 1, 20, PINS, 20)]
  const SENT_2: seq<Op> := SENT_1 + [Delegate(1, 2, 20, PINS, 20)]
  const SENT_3: seq<Op> := SENT_2 + [Delegate(1, 3, 20, PINS, 20)]

  /** The controller is read last, at time 100. */
  const READ_0: seq<Op> := SENT_3 + [PrepareRead(1, 0, 1, 100, 100)] + [FreezeRead(1, 0, 0, 100, 100, 100)]

  const SENT_SLOTS: seq<Slot> :=
    [ReadSlot(ReadOnly, 0, 100), DelegatedSlot(1), DelegatedSlot(2), DelegatedSlot(3), EmptySlot(CloudflareBatch)]

  const DIRECT_SLOTS: seq<Slot> :=
    [EmptySlot(ReadOnly), DelegatedSlot(1), DelegatedSlot(2), DelegatedSlot(3), EmptySlot(CloudflareBatch)]

  lemma DirectsSent()
    ensures Run(NewAttempt(0), SENT_3).attempt == Journal(EFFECTS_PENDING, DIRECT_SLOTS)
  {
    AllRead();
    hide Run;
    var s := [EmptySlot(ReadOnly), ReadSlot(DirectWorm, 1, 10), ReadSlot(DirectWorm, 2, 10),
              ReadSlot(DirectWorm, 3, 10), EmptySlot(CloudflareBatch)];
    Delegates(READ_3, COLLECTING, s, 1);
    var s1 := s[1 := DelegatedSlot(1)];
    Delegates(SENT_1, EFFECTS_PENDING, s1, 2);
    var s2 := s1[2 := DelegatedSlot(2)];
    Delegates(SENT_2, EFFECTS_PENDING, s2, 3);
    assert s2[3 := DelegatedSlot(3)] == DIRECT_SLOTS;
  }

  lemma AllSent()
    ensures Run(NewAttempt(0), READ_0).attempt == Journal(EFFECTS_PENDING, SENT_SLOTS)
  {
    DirectsSent();
    hide Run, DelegatedSlot;
    Reads(SENT_3, EFFECTS_PENDING, DIRECT_SLOTS, 0, 100);
    assert DIRECT_SLOTS[0 := ReadSlot(ReadOnly, 0, 100)] == SENT_SLOTS;
  }

  /** Committed at 50, delegated at 100. */
  const LATE_BATCH := BatchRequest(1, 0, FRESHNESS_MS, 50, 50, BatchPins(3, 1, 2), 0)

  lemma ControllerAfterBatch()
    ensures var a := Run(NewAttempt(0), READ_0).attempt;
            var b := Run(NewAttempt(0), READ_0 + [DelegateBatch(1, LATE_BATCH, 100)]).attempt;
            && Inv(a) && SeparatelyDelegated(a, 1, LATE_BATCH, 100)
            && b == DelegateBatchStep(a, 1, LATE_BATCH, 100).attempt
            && IsLatest(b, 1) && !ControllerFirst(At(b, 1))
  {
    AllSent();
    var a := Journal(EFFECTS_PENDING, SENT_SLOTS);
    RunMore(NewAttempt(0), READ_0, DelegateBatch(1, LATE_BATCH, 100));
    NewAttemptInv(0);
    RunKeeps(NewAttempt(0), READ_0);
    Accepted();
    SeparatePathInOrder(a, 1, LATE_BATCH, 100);
  }

  lemma Accepted()
    ensures SeparatelyDelegated(Journal(EFFECTS_PENDING, SENT_SLOTS), 1, LATE_BATCH, 100)
    ensures IsLatest(DelegateBatchStep(Journal(EFFECTS_PENDING, SENT_SLOTS), 1, LATE_BATCH, 100).attempt, 1)
  {
  }
}
