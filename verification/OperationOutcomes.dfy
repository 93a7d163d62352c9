/**
 * What each step of the operation journal does, and exactly when: in terms of the stored rows, the request
 * and the clock, and of nothing that the steps are written with. Every law holds of every attempt that keeps
 * the invariant, so a condition that the invariant already decides does not appear.
 */
module OperationOutcomes {
  import opened Foundation
  import opened Clock
  import opened OperationTypes
  import opened OperationSteps
  import opened OperationInvariant

  /** The attempt with its latest issuance exchanged. */
  function With(a: Attempt, i: Issuance): Attempt
    requires a.issuances != []
  {
    a.(issuances := a.issuances[|a.issuances| - 1 := i])
  }

  function Latest(a: Attempt): Issuance
    requires a.issuances != []
  {
    a.issuances[|a.issuances| - 1]
  }

  predicate Has(a: Attempt, o: nat) {
    a.issuances != [] && o == |a.issuances|
  }

  predicate HasSlot(a: Attempt, o: nat, k: nat) {
    Has(a, o) && k < |Latest(a).slots|
  }

  lemma LatestOk(a: Attempt)
    requires Inv(a) && a.issuances != []
    ensures IssuanceOk(a.sequence, |a.issuances|, Latest(a))
    ensures forall k :: 0 <= k < |Latest(a).slots| ==> SlotOk(|a.issuances|, Latest(a), k, Latest(a).slots[k])
  {
    assert IssuanceOk(a.sequence, |a.issuances|, a.issuances[|a.issuances| - 1]);
  }

  // ---- issuances ------------------------------------------------------------------------------

  function Blank(kind: SlotKind): Slot {
    Slot(kind, SlotPrepared, None, None, None, None, None, None, None)
  }

  /** A new issuance lives for sixty seconds and has one blank slot for each part of its record. */
  function Issued(sequence: nat, now: int): Issuance {
    Issuance(now, now + 60_000, RESERVED, None, None,
             if sequence == 0
             then [Blank(ReadOnly), Blank(DirectWorm), Blank(DirectWorm), Blank(DirectWorm), Blank(CloudflareBatch)]
             else [Blank(CloudflareBatch)])
  }

  predicate CanIssue(now: int) {
    IsDate(now) && IsDate(now + 60_000)
  }

  lemma IssuedIsNew(sequence: nat, now: int)
    ensures NewIssuance(sequence, now) == Issued(sequence, now)
  {
    assert EmptyRoster(sequence) == Issued(sequence, now).slots;
  }

  lemma ReserveDecided(a: Attempt, now: int)
    requires Inv(a)
    ensures Apply(a, Reserve(now)).grants == {}
    ensures Apply(a, Reserve(now)).attempt
            == if a.issuances == [] && CanIssue(now)
               then a.(intent := Some(IntentOpen), issuances := [Issued(a.sequence, now)]) else a
  {
    IssuedIsNew(a.sequence, now);
  }

  /** An issuance is replaced once its time is over, unless one of its effects may have taken place. */
  predicate CanReissue(a: Attempt, seen: nat, now: int) {
    && Has(a, seen) && seen < MAX_ORDINAL && CanIssue(now)
    && Latest(a).freshUntil < now && Latest(a).state in {RESERVED, COLLECTING, EXPIRED_UNDISPATCHED}
  }

  lemma ReissueDecided(a: Attempt, seen: nat, now: int)
    requires Inv(a)
    ensures Apply(a, Reissue(seen, now)).grants == {}
    ensures Apply(a, Reissue(seen, now)).attempt
            == if CanReissue(a, seen, now)
               then var stale := With(a, Latest(a).(state := EXPIRED_UNDISPATCHED));
                    stale.(issuances := stale.issuances + [Issued(a.sequence, now)])
               else a
  {
    IssuedIsNew(a.sequence, now);
    if Has(a, seen) {
      LatestOk(a);
      var i := Latest(a);
      if Reissuable(i) {
        NotDispatched(a.sequence, seen, i);
      }
    }
  }

  // ---- freshness ------------------------------------------------------------------------------

  predicate IsOpen(a: Attempt, o: nat) {
    Has(a, o) && Latest(a).state in {RESERVED, COLLECTING, EFFECTS_PENDING}
  }

  /** Observed since the issuance began, not later than now, and within its sixty seconds. */
  predicate OnTime(i: Issuance, now: int, observed: int) {
    i.issuedAt <= observed <= now <= i.issuedAt + 60_000
  }

  /** With an effect on its way it must be waited for; otherwise the issuance is over. */
  function Lapsed(i: Issuance): Issuance {
    i.(state := if i.state == EFFECTS_PENDING then DISPATCHED_HOLD else EXPIRED_UNDISPATCHED)
  }

  lemma PassesOnTime(a: Attempt, o: nat, now: int, observed: int)
    requires Inv(a)
    ensures Passes(a, o, now, observed) <==> IsOpen(a, o) && OnTime(Latest(a), now, observed)
    ensures IsOpen(a, o) ==> Expire(Latest(a)) == Lapsed(Latest(a))
  {
    if Has(a, o) {
      LatestOk(a);
    }
  }

  lemma GateDecided(a: Attempt, o: nat, now: int, observed: int)
    requires Inv(a)
    ensures Apply(a, Gate(o, now, observed)).grants == {}
    ensures Apply(a, Gate(o, now, observed)).attempt
            == if IsOpen(a, o) && !OnTime(Latest(a), now, observed) then With(a, Lapsed(Latest(a))) else a
  {
    PassesOnTime(a, o, now, observed);
  }

  // ---- reads ----------------------------------------------------------------------------------

  /** The provider may be asked: for the first time, or again with the request that is stored. */
  predicate MayAsk(a: Attempt, o: nat, k: nat, request: Name) {
    && IsOpen(a, o) && k < |Latest(a).slots| && Latest(a).slots[k].kind != CloudflareBatch
    && (Latest(a).slots[k].state == SlotPrepared
        || (Latest(a).slots[k].state == ReadInFlight && Latest(a).slots[k].request == Some(request)))
  }

  function Asked(i: Issuance, k: nat, request: Name): Issuance
    requires k < |i.slots|
  {
    i.(state := if i.state == EFFECTS_PENDING then EFFECTS_PENDING else COLLECTING,
       slots := i.slots[k := i.slots[k].(request := Some(request), state := ReadInFlight)])
  }

  lemma PrepareReadDecided(a: Attempt, o: nat, k: nat, request: Name, now: int, inner: int)
    requires Inv(a)
    ensures var r := Apply(a, PrepareRead(o, k, request, now, inner));
            if IsOpen(a, o) && !OnTime(Latest(a), now, now) then r == Result(With(a, Lapsed(Latest(a))), {})
            else if MayAsk(a, o, k, request) && OnTime(Latest(a), inner, inner)
            then && r.grants == {ReadGrant(o, k, request)}
                 && r.attempt == if Latest(a).slots[k].state == SlotPrepared
                                 then With(a, Asked(Latest(a), k, request)) else a
            else r == Result(a, {})
  {
    PassesOnTime(a, o, now, now);
    PassesOnTime(a, o, inner, inner);
  }

  /** The payload of a read in flight is frozen with the time it was observed. */
  function FrozenWith(i: Issuance, k: nat, payload: Name, observed: int): Issuance
    requires k < |i.slots|
  {
    i.(slots := i.slots[k := i.slots[k].(payload := Some(payload), observedAt := Some(observed), state := SlotFrozen)])
  }

  lemma FreezeReadDecided(a: Attempt, o: nat, k: nat, payload: Name, observed: int, now: int, inner: int)
    requires Inv(a)
    ensures Apply(a, FreezeRead(o, k, payload, observed, now, inner)).grants == {}
    ensures Apply(a, FreezeRead(o, k, payload, observed, now, inner)).attempt
            == if IsOpen(a, o) && !OnTime(Latest(a), now, observed) then With(a, Lapsed(Latest(a)))
               else if IsOpen(a, o) && OnTime(Latest(a), inner, observed) && k < |Latest(a).slots|
                       && Latest(a).slots[k].state == ReadInFlight
               then With(a, FrozenWith(Latest(a), k, payload, observed)) else a
  {
    PassesOnTime(a, o, now, observed);
    PassesOnTime(a, o, inner, observed);
    if Has(a, o) {
      LatestOk(a);
    }
  }

  // ---- delegation -----------------------------------------------------------------------------

  /** The two subjects of a token share one kind of evidence, the rules of a branch have their own. */
  function EffectOf(s: Slot, k: nat, committed: int, pins: DirectPins): DirectEffect
    requires s.payload.Some?
  {
    DirectEffect(if k == 1 || k == 2 then OidcSubject else BranchRuleset, s.payload.value, committed, pins)
  }

  function Given(s: Slot, e: DirectEffect): Slot {
    s.(effect := Some(e), committedAt := Some(e.committedAt), state := Delegated)
  }

  /** Only the two token subjects can ask for the same object. */
  predicate SameObject(slots: seq<Slot>, k: nat, e: DirectEffect) {
    && (k == 1 || k == 2) && |slots| == 5 && slots[3 - k].effect.Some?
    && slots[3 - k].effect.value.payload == e.payload
  }

  /** Slots of earlier issuances hold no effect. */
  lemma EarlierHoldNothing(a: Attempt, p: nat, q: nat)
    requires Inv(a) && p < |a.issuances| - 1 && q < |a.issuances[p].slots|
    ensures a.issuances[p].slots[q].effect.None?
  {
    assert IssuanceOk(a.sequence, p + 1, a.issuances[p]);
    assert SlotOk(p + 1, a.issuances[p], q, a.issuances[p].slots[q]);
  }

  /** The unique object keys over all slots come down to comparing two slots of the same issuance. */
  lemma KeyTakenIsSameObject(a: Attempt, o: nat, k: nat, committed: int, pins: DirectPins)
    requires Inv(a) && HasSlot(a, o, k) && Latest(a).slots[k].kind == DirectWorm && Latest(a).slots[k].payload.Some?
    ensures 1 <= k <= 3
    ensures var e := EffectOf(Latest(a).slots[k], k, committed, pins);
            && e == DirectEffect(EvidenceAt(k), Latest(a).slots[k].payload.value, committed, pins)
            && (KeyTaken(a, e, o, k) <==> SameObject(Latest(a).slots, k, e))
  {
    LatestOk(a);
    var i := Latest(a);
    var e := EffectOf(i.slots[k], k, committed, pins);
    if SameObject(i.slots, k, e) {
      assert SlotOk(o, i, 3 - k, i.slots[3 - k]);
      assert KeyAt(a.issuances[o - 1].slots[3 - k], e);
    }
    if KeyTaken(a, e, o, k) {
      TakenIsSameObject(a, o, k, e);
    }
  }

  lemma TakenIsSameObject(a: Attempt, o: nat, k: nat, e: DirectEffect)
    requires Inv(a) && HasSlot(a, o, k) && 1 <= k <= 3 && e.evidence == EvidenceAt(k) && KeyTaken(a, e, o, k)
    ensures SameObject(Latest(a).slots, k, e)
  {
    var p, q :| 0 <= p < |a.issuances| && 0 <= q < |a.issuances[p].slots| && (p != o - 1 || q != k)
                && KeyAt(a.issuances[p].slots[q], e);
    hide Inv;
    if p < |a.issuances| - 1 {
      EarlierHoldNothing(a, p, q);
    } else {
      EvidenceOfSlot(a, o, q);
    }
  }

  lemma EvidenceOfSlot(a: Attempt, o: nat, q: nat)
    requires Inv(a) && HasSlot(a, o, q) && Latest(a).slots[q].effect.Some?
    ensures |Latest(a).slots| == 5 && 1 <= q <= 3
    ensures Latest(a).slots[q].effect.value.evidence == EvidenceAt(q)
  {
    LatestOk(a);
    assert SlotOk(o, Latest(a), q, Latest(a).slots[q]);
  }

  lemma DirectSlot(a: Attempt, o: nat, k: nat)
    requires Inv(a) && HasSlot(a, o, k) && Latest(a).slots[k].kind == DirectWorm
    ensures Latest(a).freshUntil == Latest(a).issuedAt + 60_000
    ensures var i := Latest(a);
            var s := i.slots[k];
            && (s.payload.Some? <==> s.state in {SlotFrozen, Delegated, SlotConfirmed})
            && (s.payload.Some? ==> s.observedAt.Some? && i.issuedAt <= s.observedAt.value)
            && (s.state == SlotFrozen ==> !Final(i.state))
            && (s.state == Delegated ==> i.state in {EFFECTS_PENDING, DISPATCHED_HOLD})
  {
    LatestOk(a);
    var i := Latest(a);
    assert SlotOk(o, i, k, i.slots[k]);
    assert IsDispatched(i.slots[k]) ==> HasDispatch(i.slots);
    if Final(i.state) {
      FinalSlot(a, o, k);
    }
  }

  /** The slot waits for its effect in an open issuance. */
  predicate Awaits(a: Attempt, o: nat, k: nat, state: SlotState) {
    IsOpen(a, o) && k < |Latest(a).slots| && Latest(a).slots[k].state == state
  }

  function Delegating(i: Issuance, k: nat, s: Slot): Issuance
    requires k < |i.slots|
  {
    i.(state := EFFECTS_PENDING, slots := i.slots[k := s])
  }

  /** A frozen slot of an open issuance is delegated, or found late, or left alone. */
  lemma FrozenDelegatesOne(a: Attempt, o: nat, k: nat, committed: int, pins: DirectPins, now: int)
    requires Inv(a) && Awaits(a, o, k, SlotFrozen)
    requires Latest(a).slots[k].kind == DirectWorm && Latest(a).slots[k].payload.Some?
    ensures var i := Latest(a);
            var e := EffectOf(i.slots[k], k, committed, pins);
            DelegateStep(a, o, k, committed, pins, now)
            == if now > i.issuedAt + 60_000 || committed > i.issuedAt + 60_000 then Result(With(a, Lapsed(i)), {})
               else if i.slots[k].observedAt.Some? && i.slots[k].observedAt.value <= committed <= now
                       && !SameObject(i.slots, k, e)
               then Result(With(a, Delegating(i, k, Given(i.slots[k], e))), {EffectGrant(o, k, e)})
               else Refuse(a)
  {
    DirectSlot(a, o, k);
    PassesOnTime(a, o, now, now);
    KeyTakenIsSameObject(a, o, k, committed, pins);
    hide Inv, KeyTaken, SameObject, Expire, EffectOf, EvidenceAt;
  }

  /** A slot that waits for nothing finds the call it is already out for, or nothing. */
  lemma DelegatedAnswers(a: Attempt, o: nat, k: nat, committed: int, pins: DirectPins, now: int)
    requires HasSlot(a, o, k) && Latest(a).slots[k].kind == DirectWorm && Latest(a).slots[k].payload.Some?
    requires !Awaits(a, o, k, SlotFrozen)
    requires var i := Latest(a);
             && (i.slots[k].state == SlotFrozen ==> !Final(i.state))
             && (i.slots[k].state == Delegated ==> i.state in {EFFECTS_PENDING, DISPATCHED_HOLD})
    requires EffectOf(Latest(a).slots[k], k, committed, pins)
             == DirectEffect(EvidenceAt(k), Latest(a).slots[k].payload.value, committed, pins)
    ensures var e := EffectOf(Latest(a).slots[k], k, committed, pins);
            DelegateStep(a, o, k, committed, pins, now)
            == if Latest(a).slots[k].state == Delegated && Latest(a).slots[k].effect == Some(e)
               then Result(a, {EffectGrant(o, k, e)}) else Refuse(a)
  {
    hide EffectOf, EvidenceAt, KeyTaken, Chronological, Expire;
  }

  lemma NothingDelegates(a: Attempt, o: nat, k: nat, committed: int, pins: DirectPins, now: int)
    requires !HasSlot(a, o, k) || Latest(a).slots[k].kind != DirectWorm || Latest(a).slots[k].payload.None?
    ensures DelegateStep(a, o, k, committed, pins, now) == Refuse(a)
  {
  }

  /** One direct effect by itself. */
  lemma DelegateDecided(a: Attempt, o: nat, k: nat, committed: int, pins: DirectPins, now: int)
    requires Inv(a)
    ensures var r := Apply(a, Delegate(o, k, committed, pins, now));
            if !HasSlot(a, o, k) || Latest(a).slots[k].kind != DirectWorm || Latest(a).slots[k].payload.None?
            then r == Result(a, {})
            else
              var i := Latest(a);
              var e := EffectOf(i.slots[k], k, committed, pins);
              if i.slots[k].state == Delegated && i.slots[k].effect == Some(e) then r == Result(a, {EffectGrant(o, k, e)})
              else if !Awaits(a, o, k, SlotFrozen) then r == Result(a, {})
              else if now > i.issuedAt + 60_000 || committed > i.issuedAt + 60_000 then r == Result(With(a, Lapsed(i)), {})
              else if i.slots[k].observedAt.Some? && i.slots[k].observedAt.value <= committed <= now
                      && !SameObject(i.slots, k, e)
              then r == Result(With(a, Delegating(i, k, Given(i.slots[k], e))), {EffectGrant(o, k, e)})
              else r == Result(a, {})
  {
    hide Inv, SameObject, EffectOf, DelegateStep;
    if HasSlot(a, o, k) && Latest(a).slots[k].kind == DirectWorm && Latest(a).slots[k].payload.Some? {
      DirectSlot(a, o, k);
      KeyTakenIsSameObject(a, o, k, committed, pins);
      if Awaits(a, o, k, SlotFrozen) {
        FrozenDelegatesOne(a, o, k, committed, pins, now);
      } else {
        DelegatedAnswers(a, o, k, committed, pins, now);
      }
    } else {
      NothingDelegates(a, o, k, committed, pins, now);
    }
  }

  /** The request names this issuance and its times, and was made and committed within them. */
  predicate Asks(r: BatchRequest, o: nat, i: Issuance) {
    && r.ordinal == o && r.issuedAt == i.issuedAt && r.freshUntil == i.issuedAt + 60_000
    && i.issuedAt <= r.requestedAt <= r.committedAt <= i.issuedAt + 60_000
  }

  predicate CommittedBy(s: Slot, time: int) {
    s.state in {Delegated, SlotConfirmed} && s.committedAt.Some? && s.committedAt.value <= time
  }

  function BatchGiven(s: Slot, r: BatchRequest): Slot {
    s.(batch := Some(r), committedAt := Some(r.committedAt), state := Delegated)
  }

  lemma BatchSlotOk(a: Attempt, o: nat)
    requires Inv(a) && Has(a, o)
    ensures Latest(a).freshUntil == Latest(a).issuedAt + 60_000
    ensures BatchSlot(a.sequence) == |Latest(a).slots| - 1
    ensures var i := Latest(a);
            var s := i.slots[|i.slots| - 1];
            && s.kind == CloudflareBatch
            && s.state in {SlotPrepared, Delegated, SlotConfirmed}
            && (s.state != SlotPrepared ==> s.batch.Some? && Asks(s.batch.value, o, i))
            && (s.state == SlotPrepared ==> s.batch.None? && !Final(i.state))
            && (s.state == Delegated ==> i.state in {EFFECTS_PENDING, DISPATCHED_HOLD} && i.recordAt.None?)
  {
    LatestOk(a);
    var i := Latest(a);
    var k := BatchSlot(a.sequence);
    assert SlotOk(o, i, k, i.slots[k]);
    assert IsDispatched(i.slots[k]) ==> HasDispatch(i.slots);
    if Final(i.state) {
      FinalSlot(a, o, k);
    }
  }

  lemma DispatchedIsCommitted(a: Attempt, o: nat, k: nat, committed: int)
    requires Inv(a) && HasSlot(a, o, k) && Latest(a).slots[k].kind == DirectWorm
    ensures var s := Latest(a).slots[k];
            CommittedBy(s, committed) <==>
              && IsDispatched(s) && s.observedAt.Some? && s.committedAt.Some?
              && s.observedAt.value <= s.committedAt.value <= committed
  {
    LatestOk(a);
    assert SlotOk(o, Latest(a), k, Latest(a).slots[k]);
  }

  lemma PredecessorsCommitted(a: Attempt, o: nat, committed: int)
    requires Inv(a) && Has(a, o)
    ensures Predecessors(a, Latest(a).slots, committed)
            <==> a.sequence == 1
                 || (&& |Latest(a).slots| == 5 && Latest(a).slots[0].state == SlotFrozen
                     && forall k :: 1 <= k <= 3 ==> CommittedBy(Latest(a).slots[k], committed))
  {
    if |Latest(a).slots| == 5 {
      ReadSlots(a, o);
      DispatchedIsCommitted(a, o, 1, committed);
      DispatchedIsCommitted(a, o, 2, committed);
      DispatchedIsCommitted(a, o, 3, committed);
    }
    hide Inv, CommittedBy, IsDispatched;
  }

  /** The batch by itself: in A1 at once, in A0 after the three effects, whenever the controller was read. */
  lemma DelegateBatchDecided(a: Attempt, o: nat, q: BatchRequest, now: int)
    requires Inv(a)
    ensures var r := Apply(a, DelegateBatch(o, q, now));
            if !Has(a, o) || Latest(a).slots == [] then r == Result(a, {})
            else
              var i := Latest(a);
              var k := |i.slots| - 1;
              if i.slots[k].state == Delegated && i.slots[k].batch == Some(q) then r == Result(a, {BatchGrant(o, q)})
              else if !Awaits(a, o, k, SlotPrepared) || !Asks(q, o, i) then r == Result(a, {})
              else if !(a.sequence == 1
                        || (&& k == 4 && i.slots[0].state == SlotFrozen
                            && forall j :: 1 <= j <= 3 ==> CommittedBy(i.slots[j], q.committedAt))) then r == Result(a, {})
              else if now > i.issuedAt + 60_000 then r == Result(With(a, Lapsed(i)), {})
              else if q.committedAt <= now
              then r == Result(With(a, Delegating(i, k, BatchGiven(i.slots[k], q))), {BatchGrant(o, q)})
              else r == Result(a, {})
  {
    if Has(a, o) {
      BatchSlotOk(a, o);
      PassesOnTime(a, o, now, now);
      PredecessorsCommitted(a, o, q.committedAt);
      hide Inv, Predecessors, CommittedBy, Expire;
    }
  }

  // ---- the atomic delegation ------------------------------------------------------------------

  /** The four effects that one request of an A0 issuance stands for, over the payloads frozen there. */
  function EffectsOf(slots: seq<Slot>, q: BatchRequest): seq<DirectEffect>
    requires |slots| == 5 && (forall k :: 1 <= k <= 3 ==> slots[k].payload.Some?)
  {
    var pins := DirectPins(executor := q.pins.worm, observer := q.pins.b2Observer);
    [DirectEffect(OidcSubject, slots[1].payload.value, q.committedAt, pins),
     DirectEffect(OidcSubject, slots[2].payload.value, q.committedAt, pins),
     DirectEffect(BranchRuleset, slots[3].payload.value, q.committedAt, pins)]
  }

  /** All four reads are frozen, and none was observed after the effects are committed. */
  predicate ReadBy(slots: seq<Slot>, committed: int) {
    && |slots| == 5
    && forall k :: 0 <= k <= 3 ==>
         && slots[k].state == SlotFrozen && slots[k].payload.Some?
         && slots[k].observedAt.Some? && slots[k].observedAt.value <= committed
  }

  predicate MayDelegateAll(a: Attempt, o: nat, q: BatchRequest, now: int) {
    && IsOpen(a, o) && Asks(q, o, Latest(a)) && ReadBy(Latest(a).slots, q.committedAt)
    && Latest(a).slots[4].state == SlotPrepared
    && q.committedAt <= now <= Latest(a).issuedAt + 60_000
    && Latest(a).slots[1].payload != Latest(a).slots[2].payload
  }

  /** The request finds the roster that it sealed itself. */
  predicate SealedAll(a: Attempt, o: nat, q: BatchRequest) {
    && Has(a, o) && |Latest(a).slots| == 5 && Latest(a).slots[4].batch == Some(q) && Latest(a).slots[0].state == SlotFrozen
    && (forall k :: 1 <= k <= 3 ==> Latest(a).slots[k].payload.Some?)
    && (forall k :: 1 <= k <= 3 ==> Latest(a).slots[k].effect == Some(EffectsOf(Latest(a).slots, q)[k - 1]))
    && (forall k :: 1 <= k <= 4 ==> Latest(a).slots[k].state in {Delegated, SlotConfirmed})
  }

  /** The roster with its three effects and its batch, all newly delegated. */
  function DelegatedRoster(slots: seq<Slot>, q: BatchRequest): seq<Slot>
    requires |slots| == 5 && (forall k :: 1 <= k <= 3 ==> slots[k].payload.Some?)
  {
    var effects := EffectsOf(slots, q);
    [slots[0], Given(slots[1], effects[0]), Given(slots[2], effects[1]), Given(slots[3], effects[2]),
     BatchGiven(slots[4], q)]
  }

  function CallsOf(o: nat, slots: seq<Slot>, q: BatchRequest): set<Grant>
    requires |slots| == 5 && (forall k :: 1 <= k <= 3 ==> slots[k].payload.Some?)
  {
    var effects := EffectsOf(slots, q);
    (if slots[1].state == Delegated then {EffectGrant(o, 1, effects[0])} else {})
    + (if slots[2].state == Delegated then {EffectGrant(o, 2, effects[1])} else {})
    + (if slots[3].state == Delegated then {EffectGrant(o, 3, effects[2])} else {})
    + (if slots[4].state == Delegated then {BatchGrant(o, q)} else {})
  }

  lemma EffectsAre(slots: seq<Slot>, q: BatchRequest)
    requires PayloadsRead(slots)
    ensures forall k :: 1 <= k <= 3 ==> EffectFor(slots, k, q) == EffectsOf(slots, q)[k - 1]
    ensures SealFour(slots, q) == DelegatedRoster(slots, q)
  {
  }

  lemma CallsAre(o: nat, slots: seq<Slot>, q: BatchRequest)
    requires PayloadsRead(slots)
    ensures OpenCalls(o, slots, q) == CallsOf(o, slots, q)
  {
    EffectsAre(slots, q);
    forall k | 1 <= k <= 3 && slots[k].state == Delegated
      ensures EffectGrant(o, k, EffectFor(slots, k, q)) in CallsOf(o, slots, q)
    {
      assert k == 1 || k == 2 || k == 3;
    }
    forall g | g in CallsOf(o, slots, q) ensures g in OpenCalls(o, slots, q) {
    }
  }

  predicate AllFrozen(slots: seq<Slot>) {
    |slots| == 5 && slots[4].state == SlotPrepared && forall k :: 0 <= k <= 3 ==> slots[k].state == SlotFrozen
  }

  /** What the invariant says of the four reads of an A0 roster. */
  predicate ReadSlot(i: Issuance, s: Slot) {
    && (s.payload.Some? <==> s.state in {SlotFrozen, Delegated, SlotConfirmed})
    && (s.payload.Some? ==> s.observedAt.Some? && i.issuedAt <= s.observedAt.value)
    && (s.effect.Some? <==> s.state in {Delegated, SlotConfirmed})
  }

  lemma ReadSlots(a: Attempt, o: nat)
    requires Inv(a) && Has(a, o) && |Latest(a).slots| == 5
    ensures a.sequence == 0 && Latest(a).slots[0].kind == ReadOnly
    ensures forall k :: 1 <= k <= 3 ==> Latest(a).slots[k].kind == DirectWorm
    ensures forall k :: 0 <= k <= 3 ==> ReadSlot(Latest(a), Latest(a).slots[k])
    ensures Latest(a).slots[4].effect.None?
  {
    LatestOk(a);
    RosterKinds(a);
    var i := Latest(a);
    hide Inv, IssuanceOk, SlotOk, ReadSlot;
    forall k | 0 <= k <= 3 ensures ReadSlot(i, i.slots[k]) {
      SlotIsRead(o, i, k);
    }
    BatchHasNoEffect(o, i);
  }

  lemma RosterKinds(a: Attempt)
    requires Inv(a) && a.issuances != [] && |Latest(a).slots| == 5
    ensures a.sequence == 0 && Latest(a).slots[0].kind == ReadOnly && Latest(a).slots[4].kind == CloudflareBatch
    ensures forall k :: 1 <= k <= 3 ==> Latest(a).slots[k].kind == DirectWorm
  {
    LatestOk(a);
  }

  lemma SlotIsRead(o: nat, i: Issuance, k: nat)
    requires k < |i.slots| && i.slots[k].kind != CloudflareBatch && SlotOk(o, i, k, i.slots[k])
    ensures ReadSlot(i, i.slots[k])
  {
  }

  lemma BatchHasNoEffect(o: nat, i: Issuance)
    requires |i.slots| == 5 && i.slots[4].kind == CloudflareBatch && SlotOk(o, i, 4, i.slots[4])
    ensures i.slots[4].effect.None?
  {
  }

  /** A roster in which no effect is delegated yet takes no object key away. */
  lemma NoKeyTaken(a: Attempt, o: nat, q: BatchRequest)
    requires Inv(a) && Has(a, o) && AllFrozen(Latest(a).slots) && PayloadsRead(Latest(a).slots)
    ensures forall k :: 1 <= k <= 3 ==> !KeyTaken(a, EffectFor(Latest(a).slots, k, q), o, k)
  {
    ReadSlots(a, o);
    var slots := Latest(a).slots;
    hide Inv, KeyTaken;
    forall k | 1 <= k <= 3 ensures !KeyTaken(a, EffectFor(slots, k, q), o, k) {
      KeyTakenIsSameObject(a, o, k, q.committedAt, PinsFrom(q.pins));
    }
  }

  /** The four checks of the step on a roster whose reads are frozen. */
  lemma ChecksDecide(a: Attempt, o: nat, q: BatchRequest, now: int)
    requires Inv(a) && IsOpen(a, o) && AllFrozen(Latest(a).slots) && Asks(q, o, Latest(a)) && PayloadsRead(Latest(a).slots)
    requires now <= Latest(a).issuedAt + 60_000 == Latest(a).freshUntil
    ensures var i := Latest(a);
            MayDelegateAll(a, o, q, now)
            <==> && i.slots[0].observedAt.Some? && i.slots[0].observedAt.value <= q.committedAt
                 && (forall k :: 1 <= k <= 3 ==> Chronological(i, i.slots[k], q.committedAt, now))
                 && !SameKey(EffectFor(i.slots, 1, q), EffectFor(i.slots, 2, q))
  {
    ReadSlots(a, o);
    EffectsAre(Latest(a).slots, q);
    var i := Latest(a);
    hide Inv;
    if forall k :: 1 <= k <= 3 ==> Chronological(i, i.slots[k], q.committedAt, now) {
      assert Chronological(i, i.slots[1], q.committedAt, now);
      assert Chronological(i, i.slots[2], q.committedAt, now);
      assert Chronological(i, i.slots[3], q.committedAt, now);
    }
  }

  lemma SealedIsMatched(a: Attempt, o: nat, q: BatchRequest)
    requires Inv(a) && Has(a, o)
    ensures SealedAll(a, o, q)
            <==> PayloadsRead(Latest(a).slots) && AllDispatched(Latest(a).slots) && SealMatches(Latest(a).slots, q)
    ensures SealedAll(a, o, q) ==> ParsesBatch(q, o, Latest(a))
  {
    var slots := Latest(a).slots;
    BatchSlotOk(a, o);
    if |slots| == 5 {
      ReadSlots(a, o);
      if PayloadsRead(slots) {
        EffectsAre(slots, q);
      }
    }
  }

  /** The roster after a new delegation: nothing is answered yet, so every call is open. */
  lemma NewCalls(o: nat, slots: seq<Slot>, q: BatchRequest)
    requires PayloadsRead(slots)
    ensures var sealed := DelegatedRoster(slots, q);
            && SealFour(slots, q) == sealed && PayloadsRead(sealed)
            && OpenCalls(o, sealed, q)
               == {EffectGrant(o, 1, sealed[1].effect.value), EffectGrant(o, 2, sealed[2].effect.value),
                   EffectGrant(o, 3, sealed[3].effect.value), BatchGrant(o, q)}
  {
    EffectsAre(slots, q);
    CallsAre(o, DelegatedRoster(slots, q), q);
  }

  /** A roster whose reads are frozen is delegated, or found late, or left alone. */
  lemma FrozenDelegates(a: Attempt, o: nat, q: BatchRequest, now: int)
    requires Inv(a) && IsOpen(a, o) && Asks(q, o, Latest(a)) && AllFrozen(Latest(a).slots) && PayloadsRead(Latest(a).slots)
    ensures var i := Latest(a);
            DelegateAllStep(a, o, q, now)
            == if now > i.issuedAt + 60_000 then Result(With(a, Lapsed(i)), {})
               else if MayDelegateAll(a, o, q, now)
               then Result(With(a, i.(state := EFFECTS_PENDING, slots := SealFour(i.slots, q))),
                           OpenCalls(o, SealFour(i.slots, q), q))
               else Refuse(a)
  {
    BatchSlotOk(a, o);
    PassesOnTime(a, o, now, now);
    NoKeyTaken(a, o, q);
    if now <= Latest(a).issuedAt + 60_000 {
      ChecksDecide(a, o, q, now);
    }
    hide Inv, KeyTaken, MayDelegateAll, Expire, EffectFor, SealFour, OpenCalls, Chronological, SameKey, DelegateAllStep;
    FrozenRowsDelegate(a, o, q, now);
  }

  /** The same, from what the invariant says of these rows. */
  lemma FrozenRowsDelegate(a: Attempt, o: nat, q: BatchRequest, now: int)
    requires IsOpen(a, o) && Asks(q, o, Latest(a)) && AllFrozen(Latest(a).slots) && PayloadsRead(Latest(a).slots)
    requires Latest(a).freshUntil == Latest(a).issuedAt + 60_000 && Expire(Latest(a)) == Lapsed(Latest(a))
    requires forall k :: 1 <= k <= 3 ==> !KeyTaken(a, EffectFor(Latest(a).slots, k, q), o, k)
    requires now <= Latest(a).issuedAt + 60_000 ==>
               var i := Latest(a);
               MayDelegateAll(a, o, q, now)
               <==> && i.slots[0].observedAt.Some? && i.slots[0].observedAt.value <= q.committedAt
                    && (forall k :: 1 <= k <= 3 ==> Chronological(i, i.slots[k], q.committedAt, now))
                    && !SameKey(EffectFor(i.slots, 1, q), EffectFor(i.slots, 2, q))
    ensures var i := Latest(a);
            DelegateAllStep(a, o, q, now)
            == if now > i.issuedAt + 60_000 then Result(With(a, Lapsed(i)), {})
               else if MayDelegateAll(a, o, q, now)
               then Result(With(a, i.(state := EFFECTS_PENDING, slots := SealFour(i.slots, q))),
                           OpenCalls(o, SealFour(i.slots, q), q))
               else Refuse(a)
  {
    hide KeyTaken, MayDelegateAll, Expire, EffectFor, SealFour, OpenCalls, Chronological, SameKey;
  }

  /** Without a sealed and without a frozen roster nothing happens. */
  lemma OtherRefused(a: Attempt, o: nat, q: BatchRequest, now: int)
    requires Inv(a) && !SealedAll(a, o, q)
    requires !IsOpen(a, o) || !Asks(q, o, Latest(a)) || !AllFrozen(Latest(a).slots)
    ensures DelegateAllStep(a, o, q, now) == Refuse(a)
  {
    if Has(a, o) {
      BatchSlotOk(a, o);
      SealedIsMatched(a, o, q);
      hide Inv, KeyTaken, SealedAll, MayDelegateAll, EffectFor, SealFour, OpenCalls, Chronological;
    }
  }

  /** The request that sealed a roster finds the calls without an answer. */
  lemma SealedAnswers(a: Attempt, o: nat, q: BatchRequest, now: int)
    requires Inv(a) && SealedAll(a, o, q)
    ensures DelegateAllStep(a, o, q, now) == Result(a, CallsOf(o, Latest(a).slots, q))
  {
    var slots := Latest(a).slots;
    SealedIsMatched(a, o, q);
    CallsAre(o, slots, q);
    LatestOk(a);
    if Final(Latest(a).state) {
      FinalSlot(a, o, 1);
      FinalSlot(a, o, 2);
      FinalSlot(a, o, 3);
      FinalSlot(a, o, 4);
    } else {
      assert IsDispatched(slots[4]);
      assert HasDispatch(slots);
    }
    hide Inv, IssuanceOk, SealedAll, OpenCalls, KeyTaken, Chronological, SlotOk;
  }

  /**
   * The atomic delegation: all four calls or none. The request that sealed the roster is answered again with
   * the calls that are still open; any other request needs every read frozen in time and a free batch slot.
   */
  predicate Delegates(a: Attempt, o: nat, q: BatchRequest, now: int, b: Attempt, calls: set<Grant>) {
    if SealedAll(a, o, q) then b == a && calls == CallsOf(o, Latest(a).slots, q)
    else if MayDelegateAll(a, o, q, now) then
      var i := Latest(a);
      var sealed := DelegatedRoster(i.slots, q);
      && b == With(a, i.(state := EFFECTS_PENDING, slots := sealed))
      && calls == {EffectGrant(o, 1, sealed[1].effect.value), EffectGrant(o, 2, sealed[2].effect.value),
                   EffectGrant(o, 3, sealed[3].effect.value), BatchGrant(o, q)}
    else if IsOpen(a, o) && Asks(q, o, Latest(a)) && AllFrozen(Latest(a).slots) && now > Latest(a).issuedAt + 60_000
    then b == With(a, Lapsed(Latest(a))) && calls == {}
    else b == a && calls == {}
  }

  lemma DelegateAllDecided(a: Attempt, o: nat, q: BatchRequest, now: int)
    requires Inv(a)
    ensures var r := Apply(a, DelegateAll(o, q, now)); Delegates(a, o, q, now, r.attempt, r.grants)
  {
    if SealedAll(a, o, q) {
      SealedAnswers(a, o, q, now);
    } else if IsOpen(a, o) && Asks(q, o, Latest(a)) && AllFrozen(Latest(a).slots) {
      ReadSlots(a, o);
      FrozenDelegates(a, o, q, now);
      NewCalls(o, Latest(a).slots, q);
    } else {
      OtherRefused(a, o, q, now);
    }
    hide Inv, DelegateAllStep, SealFour, OpenCalls, CallsOf;
  }

  // ---- results --------------------------------------------------------------------------------

  /** Kept for 2557 days. */
  predicate RetainedFrom(committed: int, until: int) {
    committed + 220_924_800_000 <= until
  }

  /** The result of this very effect, with an object version that no other slot has. */
  predicate Answers(slots: seq<Slot>, k: nat, r: SlotResult)
    requires k < |slots|
  {
    && slots[k].kind == DirectWorm && slots[k].state == Delegated
    && r.DirectResult? && slots[k].effect == Some(r.effect)
    && RetainedFrom(r.effect.committedAt, r.retentionUntil)
    && forall q :: 0 <= q < |slots| && q != k && slots[q].result.Some? && slots[q].result.value.DirectResult? ==>
         slots[q].result.value.version != r.version
  }

  function Answered(i: Issuance, k: nat, r: SlotResult): Issuance
    requires k < |i.slots|
  {
    i.(slots := i.slots[k := i.slots[k].(result := Some(r), state := SlotConfirmed)])
  }

  /** A delegated effect waits for its result whatever else has happened to the issuance. */
  lemma ConfirmDirectDecided(a: Attempt, o: nat, k: nat, r: SlotResult)
    requires Inv(a)
    ensures Apply(a, ConfirmDirect(o, k, r)).grants == {}
    ensures Apply(a, ConfirmDirect(o, k, r)).attempt
            == if HasSlot(a, o, k) && Answers(Latest(a).slots, k, r) then With(a, Answered(Latest(a), k, r)) else a
  {
    if HasSlot(a, o, k) && Latest(a).slots[k].kind == DirectWorm {
      DirectSlot(a, o, k);
      ConfirmSlotDecided(a, o, k, r);
    }
  }

  lemma ConfirmSlotDecided(a: Attempt, o: nat, k: nat, r: SlotResult)
    requires HasSlot(a, o, k) && Latest(a).slots[k].kind == DirectWorm
    requires Latest(a).slots[k].state == Delegated ==> Latest(a).state in {EFFECTS_PENDING, DISPATCHED_HOLD}
    ensures ConfirmDirectStep(a, o, k, r)
            == if Answers(Latest(a).slots, k, r) then With(a, Answered(Latest(a), k, r)) else a
  {
  }

  /** Fourteen components in order and the record, each stored once and kept long enough. */
  ghost predicate Anchored(r: SlotResult) {
    && r.BatchResult? && |r.anchors| == 15
    && (forall k :: 0 <= k < 15 ==>
          && r.anchors[k].role == (if k == 14 then None else Some(k))
          && RetainedFrom(r.sealedAt, r.anchors[k].retentionUntil))
    && (forall j, k :: 0 <= j < k < 15 ==>
          r.anchors[j].recordId != r.anchors[k].recordId && r.anchors[j].version != r.anchors[k].version)
  }

  lemma AnchoredIsParsed(r: SlotResult, q: BatchRequest)
    ensures ParsesBatchResult(r, q) <==> Anchored(r) && r.batch == q
  {
    if r.BatchResult? && |r.anchors| == 15 {
      forall k | 0 <= k < 15
        ensures AnchorOk(r.anchors, k, r.sealedAt)
                <==> && r.anchors[k].role == (if k == 14 then None else Some(k))
                     && RetainedFrom(r.sealedAt, r.anchors[k].retentionUntil)
      {
      }
    }
  }

  lemma ConfirmBatchDecided(a: Attempt, o: nat, r: SlotResult)
    requires Inv(a)
    ensures Apply(a, ConfirmBatch(o, r)).grants == {}
    ensures Apply(a, ConfirmBatch(o, r)).attempt
            == if Has(a, o) && Latest(a).slots != []
               then
                 var i := Latest(a);
                 var k := |i.slots| - 1;
                 if i.slots[k].state == Delegated && Anchored(r) && i.slots[k].batch == Some(r.batch)
                 then With(a, Answered(i, k, r).(recordAt := Some(r.sealedAt))) else a
               else a
  {
    if Has(a, o) {
      BatchSlotOk(a, o);
      var s := Latest(a).slots[|Latest(a).slots| - 1];
      if s.batch.Some? {
        AnchoredIsParsed(r, s.batch.value);
      }
      hide Inv, Anchored, ParsesBatchResult;
    }
  }

  // ---- record ---------------------------------------------------------------------------------

  predicate NotPast(t: Option<int>, limit: int) {
    t.None? || t.value <= limit
  }

  /** Every read is frozen and every effect answered, at times not after the time of the record. */
  predicate Complete(i: Issuance) {
    && i.recordAt.Some?
    && forall k :: 0 <= k < |i.slots| ==>
         && i.slots[k].state == (if i.slots[k].kind == ReadOnly then SlotFrozen else SlotConfirmed)
         && NotPast(i.slots[k].observedAt, i.recordAt.value) && NotPast(i.slots[k].committedAt, i.recordAt.value)
  }

  lemma CompleteIsReady(a: Attempt, o: nat)
    requires Inv(a) && Has(a, o)
    ensures Complete(Latest(a)) <==> RecordReady(a.sequence, Latest(a))
    ensures Complete(Latest(a)) ==> Latest(a).state !in {RESERVED, COLLECTING, EXPIRED_UNDISPATCHED}
  {
    LatestOk(a);
    if Complete(Latest(a)) {
      FinalIsDispatched(a.sequence, Latest(a));
    }
  }

  lemma ReadyDecided(a: Attempt, o: nat)
    requires Inv(a)
    ensures Apply(a, Ready(o)).grants == {}
    ensures Apply(a, Ready(o)).attempt
            == if Has(a, o) && Latest(a).state in {EFFECTS_PENDING, DISPATCHED_HOLD} && Complete(Latest(a))
               then With(a, Latest(a).(state := READY_TO_APPEND)) else a
  {
    if Has(a, o) {
      CompleteIsReady(a, o);
      hide Inv, RecordReady, Complete;
      assert With(a, Latest(a)) == a;
    }
  }

  /** What the record of an issuance is built from. */
  predicate IsCore(core: Core, o: nat, i: Issuance) {
    i.recordAt.Some? && core == Core(ordinal := o, slots := i.slots, recordAt := i.recordAt.value)
  }

  lemma AppendDecided(a: Attempt, o: nat, core: Core)
    requires Inv(a)
    ensures Apply(a, Append(o, core)).grants == {}
    ensures Apply(a, Append(o, core)).attempt
            == if Has(a, o) && Latest(a).state == READY_TO_APPEND && IsCore(core, o, Latest(a))
               then With(a, Latest(a).(state := RECORD_APPENDED)).(record := Some(Record(core, None))) else a
  {
    if Has(a, o) {
      LatestOk(a);
    }
  }

  lemma RecordState(a: Attempt, o: nat)
    requires Inv(a)
    ensures InRecordState(a, o) <==> Has(a, o) && Latest(a).state in {RECORD_APPENDED, CONFIRMED}
    ensures InRecordState(a, o) ==>
              && IsCore(a.record.value.core, o, Latest(a))
              && (a.record.value.worm.Some? <==> Latest(a).state == CONFIRMED)
              && (Latest(a).recordResult.Some? <==> Latest(a).state == CONFIRMED)
  {
    if Has(a, o) {
      LatestOk(a);
    }
  }

  /** The record call is open from the moment the record is appended until its result is stored. */
  lemma NextRecordDecided(a: Attempt, o: nat)
    requires Inv(a)
    ensures Apply(a, NextRecord(o)).attempt == a
    ensures Apply(a, NextRecord(o)).grants
            == if Has(a, o) && Latest(a).state == RECORD_APPENDED && Latest(a).recordAt.Some?
               then {RecordGrant(Core(o, Latest(a).slots, Latest(a).recordAt.value))} else {}
  {
    RecordState(a, o);
    NextRecordKeeps(a, o);
  }

  lemma ConfirmRecordDecided(a: Attempt, o: nat, r: RecordResult)
    requires Inv(a)
    ensures Apply(a, ConfirmRecord(o, r)).grants == {}
    ensures Apply(a, ConfirmRecord(o, r)).attempt
            == if Has(a, o) && Latest(a).state == RECORD_APPENDED && IsCore(r.core, o, Latest(a))
                  && RetainedFrom(r.core.recordAt, r.worm.retentionUntil)
               then With(a, Latest(a).(recordResult := Some(r), state := CONFIRMED))
                    .(record := Some(Record(r.core, Some(r.worm))), intent := Some(IntentConfirmed))
               else a
  {
    RecordState(a, o);
  }
}
