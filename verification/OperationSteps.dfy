/** The atomic steps of the operation journal, and every remote call each one authorises. */
module OperationSteps {
  import opened Foundation
  import opened Clock
  import opened OperationTypes

  /** An identity the runner may carry to a provider, an executor or an observer. */
  datatype Grant =
    | ReadGrant(ordinal: nat, slot: nat, request: Name)
    | EffectGrant(ordinal: nat, slot: nat, effect: DirectEffect)
    | BatchGrant(ordinal: nat, batch: BatchRequest)
    | RecordGrant(core: Core)

  /** The new state and the calls authorised; a refused step authorises none. */
  datatype Result = Result(attempt: Attempt, grants: set<Grant>)

  function Refuse(a: Attempt): Result {
    Result(a, {})
  }

  predicate IsLatest(a: Attempt, o: nat) {
    1 <= o == |a.issuances|
  }

  function At(a: Attempt, o: nat): Issuance
    requires IsLatest(a, o)
  {
    a.issuances[o - 1]
  }

  function Put(a: Attempt, o: nat, i: Issuance): Attempt
    requires IsLatest(a, o)
  {
    a.(issuances := a.issuances[o - 1 := i])
  }

  function PutSlot(i: Issuance, k: nat, s: Slot): Issuance
    requires k < |i.slots|
  {
    i.(slots := i.slots[k := s])
  }

  // ---- issuances ------------------------------------------------------------------------------

  function NewIssuance(sequence: nat, now: int): Issuance {
    Issuance(now, now + FRESHNESS_MS, RESERVED, None, None, EmptyRoster(sequence))
  }

  function ReserveStep(a: Attempt, now: int): Attempt {
    if !IsDate(now) || !IsDate(now + FRESHNESS_MS) || a.issuances != [] then a
    else a.(intent := if a.intent.Some? then a.intent else Some(IntentOpen),
            issuances := [NewIssuance(a.sequence, now)])
  }

  /** Refused for recorded issuances and as soon as any effect slot was dispatched. */
  predicate Reissuable(i: Issuance) {
    && i.state !in {CONFIRMED, RECORD_APPENDED}
    && !exists k :: 0 <= k < |i.slots| && i.slots[k].kind != ReadOnly && IsDispatched(i.slots[k])
  }

  /** `seen` is the ordinal read before the call waited; a newer one is simply returned. */
  function ReissueStep(a: Attempt, seen: nat, now: int): Attempt {
    if a.intent.None? || a.issuances == [] || |a.issuances| != seen then a
    else if !IsDate(now) || !IsDate(now + FRESHNESS_MS) || seen + 1 > MAX_ORDINAL then a
    else if now <= At(a, seen).freshUntil || !Reissuable(At(a, seen)) then a
    else
      var stale := At(a, seen).(state := EXPIRED_UNDISPATCHED);
      a.(issuances := a.issuances[seen - 1 := stale] + [NewIssuance(a.sequence, now)])
  }

  function Expire(i: Issuance): Issuance {
    if i.state in {RESERVED, COLLECTING, EFFECTS_PENDING, READY_TO_APPEND}
    then i.(state := if HasDispatch(i.slots) then DISPATCHED_HOLD else EXPIRED_UNDISPATCHED)
    else i
  }

  predicate Collectable(a: Attempt, o: nat) {
    IsLatest(a, o) && At(a, o).state in {RESERVED, COLLECTING, EFFECTS_PENDING}
  }

  predicate Fresh(i: Issuance, now: int, observed: int) {
    i.issuedAt <= observed <= now && now - observed <= FRESHNESS_MS && now <= i.freshUntil
  }

  /** The freshness gate outside a transaction: its expiry stays although the call then fails. */
  function GateStep(a: Attempt, o: nat, now: int, observed: int): Attempt {
    if !Collectable(a, o) || Fresh(At(a, o), now, observed) then a
    else Put(a, o, Expire(At(a, o)))
  }

  predicate Passes(a: Attempt, o: nat, now: int, observed: int) {
    Collectable(a, o) && Fresh(At(a, o), now, observed)
  }

  predicate Current(a: Attempt, o: nat, hold: bool) {
    && IsLatest(a, o)
    && (At(a, o).state in {RESERVED, COLLECTING, EFFECTS_PENDING, READY_TO_APPEND}
        || (hold && At(a, o).state == DISPATCHED_HOLD))
  }

  // ---- reads ----------------------------------------------------------------------------------

  function Collect(s: IssuanceState): IssuanceState {
    if s == RESERVED then COLLECTING else s
  }

  /** Gate outside, gate again inside; the inner one's expiry is rolled back with the transaction. */
  function PrepareReadStep(a: Attempt, o: nat, k: nat, request: Name, now: int, inner: int): Result {
    if !Passes(a, o, now, now) then Refuse(GateStep(a, o, now, now))
    else if !Passes(a, o, inner, inner) || k >= |At(a, o).slots| then Refuse(a)
    else
      var i := At(a, o);
      var s := i.slots[k];
      if s.kind == CloudflareBatch then Refuse(a)
      else match s.state
        case SlotFrozen => Refuse(a)
        case SlotConfirmed => Refuse(a)
        case Delegated => Refuse(a)
        case ReadInFlight =>
          if s.request == Some(request) then Result(a, {ReadGrant(o, k, request)}) else Refuse(a)
        case SlotPrepared =>
          Result(Put(a, o, PutSlot(i, k, s.(request := Some(request), state := ReadInFlight))
                             .(state := Collect(i.state))),
                 {ReadGrant(o, k, request)})
  }

  function FreezeReadStep(a: Attempt, o: nat, k: nat, payload: Name, observed: int, now: int, inner: int): Attempt {
    if !Passes(a, o, now, observed) then GateStep(a, o, now, observed)
    else if !Passes(a, o, inner, observed) || k >= |At(a, o).slots| then a
    else
      var i := At(a, o);
      var s := i.slots[k];
      if s.kind == CloudflareBatch || s.state != ReadInFlight then a
      else Put(a, o, PutSlot(i, k, s.(payload := Some(payload), observedAt := Some(observed), state := SlotFrozen)))
  }

  // ---- delegation -----------------------------------------------------------------------------

  predicate Chronological(i: Issuance, s: Slot, committed: int, now: int) {
    && i.issuedAt <= committed <= now && now - committed <= 60_000
    && committed <= i.freshUntil && now <= i.freshUntil
    && (s.kind == DirectWorm ==> s.observedAt.Some? && i.issuedAt <= s.observedAt.value <= committed)
  }

  function Pending(s: IssuanceState): IssuanceState {
    if s == RESERVED || s == COLLECTING then EFFECTS_PENDING else s
  }

  predicate SameKey(a: DirectEffect, b: DirectEffect) {
    a.evidence == b.evidence && a.payload == b.payload
  }

  /** `expected_worm_key` is unique over all slots of all issuances. */
  predicate KeyTaken(a: Attempt, e: DirectEffect, o: nat, k: nat) {
    exists p, q :: 0 <= p < |a.issuances| && 0 <= q < |a.issuances[p].slots| && (p != o - 1 || q != k)
                   && KeyAt(a.issuances[p].slots[q], e)
  }

  predicate KeyAt(s: Slot, e: DirectEffect) {
    s.effect.Some? && SameKey(s.effect.value, e)
  }

  function SealDirect(s: Slot, e: DirectEffect): Slot {
    s.(effect := Some(e), committedAt := Some(e.committedAt), state := Delegated)
  }

  function SealBatch(s: Slot, r: BatchRequest): Slot {
    s.(batch := Some(r), committedAt := Some(r.committedAt), state := Delegated)
  }

  /** Delegating one direct effect by itself. */
  function DelegateStep(a: Attempt, o: nat, k: nat, committed: int, pins: DirectPins, now: int): Result {
    if !Current(a, o, true) || k >= |At(a, o).slots| then Refuse(a)
    else
      var i := At(a, o);
      var s := i.slots[k];
      if s.kind != DirectWorm || s.payload.None? then Refuse(a)
      else
        var e := DirectEffect(EvidenceAt(k), s.payload.value, committed, pins);
        if IsDispatched(s) then
          if s.effect != Some(e) then Refuse(a)
          else Result(a, if s.state == Delegated then {EffectGrant(o, k, e)} else {})
        else if i.state == DISPATCHED_HOLD || s.state != SlotFrozen then Refuse(a)
        else if now > i.freshUntil || committed > i.freshUntil then Refuse(Put(a, o, Expire(i)))
        else if !Chronological(i, s, committed, now) || KeyTaken(a, e, o, k) then Refuse(a)
        else Result(Put(a, o, PutSlot(i, k, SealDirect(s, e)).(state := Pending(i.state))), {EffectGrant(o, k, e)})
  }

  /** What a separately delegated A0 batch asks of the other slots; the controller's time is not compared. */
  predicate Predecessors(a: Attempt, slots: seq<Slot>, committed: int) {
    a.sequence == 1 ||
      (&& |slots| == 5
       && slots[0].state == SlotFrozen
       && forall k :: 1 <= k <= 3 ==>
            && IsDispatched(slots[k]) && slots[k].observedAt.Some? && slots[k].committedAt.Some?
            && slots[k].observedAt.value <= slots[k].committedAt.value <= committed)
  }

  function DelegateBatchStep(a: Attempt, o: nat, r: BatchRequest, now: int): Result {
    if !Current(a, o, true) || !ParsesBatch(r, o, At(a, o)) || BatchSlot(a.sequence) >= |At(a, o).slots| then Refuse(a)
    else
      var i := At(a, o);
      var k := BatchSlot(a.sequence);
      var s := i.slots[k];
      if IsDispatched(s) then
        if s.batch != Some(r) then Refuse(a)
        else Result(a, if s.state == Delegated then {BatchGrant(o, r)} else {})
      else if i.state == DISPATCHED_HOLD || s.state != SlotPrepared then Refuse(a)
      else if !Predecessors(a, i.slots, r.committedAt) then Refuse(a)
      else if now > i.freshUntil || r.committedAt > i.freshUntil then Refuse(Put(a, o, Expire(i)))
      else if !Chronological(i, s, r.committedAt, now) then Refuse(a)
      else Result(Put(a, o, PutSlot(i, k, SealBatch(s, r)).(state := Pending(i.state))), {BatchGrant(o, r)})
  }

  function EffectFor(slots: seq<Slot>, k: nat, r: BatchRequest): DirectEffect
    requires k < |slots| && slots[k].payload.Some?
  {
    DirectEffect(EvidenceAt(k), slots[k].payload.value, r.committedAt, PinsFrom(r.pins))
  }

  predicate PayloadsRead(slots: seq<Slot>) {
    && |slots| == 5
    && slots[0].state == SlotFrozen
    && forall k :: 1 <= k <= 3 ==> slots[k].kind == DirectWorm && slots[k].payload.Some?
  }

  /** All four A0 effects in one transaction. */
  function SealFour(slots: seq<Slot>, r: BatchRequest): (sealed: seq<Slot>)
    requires PayloadsRead(slots)
    ensures |sealed| == 5
  {
    [slots[0], SealDirect(slots[1], EffectFor(slots, 1, r)), SealDirect(slots[2], EffectFor(slots, 2, r)),
     SealDirect(slots[3], EffectFor(slots, 3, r)), SealBatch(slots[4], r)]
  }

  predicate AllDispatched(slots: seq<Slot>) {
    |slots| == 5 && forall k :: 1 <= k <= 4 ==> IsDispatched(slots[k])
  }

  predicate SealMatches(slots: seq<Slot>, r: BatchRequest)
    requires PayloadsRead(slots)
  {
    && slots[4].batch == Some(r)
    && forall k :: 1 <= k <= 3 ==> slots[k].effect == Some(EffectFor(slots, k, r))
  }

  /** The calls still open on a sealed roster. */
  function OpenCalls(o: nat, slots: seq<Slot>, r: BatchRequest): set<Grant>
    requires PayloadsRead(slots)
  {
    (set k | 1 <= k <= 3 && slots[k].state == Delegated :: EffectGrant(o, k, EffectFor(slots, k, r)))
    + (if slots[4].state == Delegated then {BatchGrant(o, r)} else {})
  }

  function DelegateAllStep(a: Attempt, o: nat, r: BatchRequest, now: int): Result {
    if !Current(a, o, true) || !ParsesBatch(r, o, At(a, o)) || !PayloadsRead(At(a, o).slots) then Refuse(a)
    else
      var i := At(a, o);
      if AllDispatched(i.slots) then
        if SealMatches(i.slots, r) then Result(a, OpenCalls(o, i.slots, r)) else Refuse(a)
      else if i.state == DISPATCHED_HOLD || i.slots[4].state != SlotPrepared
              || (exists k :: 1 <= k <= 3 && i.slots[k].state != SlotFrozen) then Refuse(a)
      else if now > i.freshUntil || r.committedAt > i.freshUntil then Refuse(Put(a, o, Expire(i)))
      else if i.slots[0].observedAt.None? || i.slots[0].observedAt.value > r.committedAt then Refuse(a)
      else if exists k :: 1 <= k <= 3 && !Chronological(i, i.slots[k], r.committedAt, now) then Refuse(a)
      else if exists k :: 1 <= k <= 3 && KeyTaken(a, EffectFor(i.slots, k, r), o, k) then Refuse(a)
      else if SameKey(EffectFor(i.slots, 1, r), EffectFor(i.slots, 2, r)) then Refuse(a)
      else
        var sealed := SealFour(i.slots, r);
        Result(Put(a, o, i.(slots := sealed, state := Pending(i.state))), OpenCalls(o, sealed, r))
  }

  // ---- results --------------------------------------------------------------------------------

  predicate VersionTaken(slots: seq<Slot>, version: Name, k: nat) {
    exists q :: 0 <= q < |slots| && q != k && slots[q].result.Some? && slots[q].result.value.DirectResult?
                && slots[q].result.value.version == version
  }

  function ConfirmDirectStep(a: Attempt, o: nat, k: nat, r: SlotResult): Attempt {
    if !Current(a, o, true) || k >= |At(a, o).slots| then a
    else
      var i := At(a, o);
      var s := i.slots[k];
      if s.kind != DirectWorm || s.effect.None? || !ParsesDirect(r, s.effect.value) || s.state != Delegated
         || VersionTaken(i.slots, r.version, k) then a
      else Put(a, o, PutSlot(i, k, s.(result := Some(r), state := SlotConfirmed)))
  }

  /** The batch result also fixes the record time, once. */
  ghost function ConfirmBatchStep(a: Attempt, o: nat, r: SlotResult): Attempt {
    if !Current(a, o, true) || BatchSlot(a.sequence) >= |At(a, o).slots| then a
    else
      var i := At(a, o);
      var k := BatchSlot(a.sequence);
      var s := i.slots[k];
      if s.batch.None? || !ParsesBatchResult(r, s.batch.value) || s.state != Delegated
         || (i.recordAt.Some? && i.recordAt != Some(r.sealedAt)) then a
      else Put(a, o, PutSlot(i, k, s.(result := Some(r), state := SlotConfirmed)).(recordAt := Some(r.sealedAt)))
  }

  // ---- record ---------------------------------------------------------------------------------

  predicate SlotDone(s: Slot) {
    s.state == (if s.kind == ReadOnly then SlotFrozen else SlotConfirmed)
  }

  predicate RosterDone(sequence: nat, slots: seq<Slot>) {
    && |slots| == |Roster(sequence)|
    && forall k :: 0 <= k < |slots| ==> slots[k].kind == Roster(sequence)[k] && SlotDone(slots[k])
  }

  predicate NotAfter(t: Option<int>, limit: int) {
    t.Some? ==> t.value <= limit
  }

  predicate RecordReady(sequence: nat, i: Issuance) {
    && RosterDone(sequence, i.slots)
    && i.recordAt.Some?
    && forall k :: 0 <= k < |i.slots| ==>
         NotAfter(i.slots[k].observedAt, i.recordAt.value) && NotAfter(i.slots[k].committedAt, i.recordAt.value)
  }

  function ReadyStep(a: Attempt, o: nat): Attempt {
    if !Current(a, o, true) || !RecordReady(a.sequence, At(a, o)) then a
    else
      var i := At(a, o);
      Put(a, o, i.(state := if i.state in {COLLECTING, EFFECTS_PENDING, DISPATCHED_HOLD} then READY_TO_APPEND else i.state))
  }

  /** `core` was materialised from the rows as read before the call waited. */
  function AppendStep(a: Attempt, o: nat, core: Core): Attempt {
    if a.record.Some? && a.record.value.core.ordinal == o then a
    else if !IsLatest(a, o) || core.ordinal != o || !RosterDone(a.sequence, core.slots) then a
    else
      var i := At(a, o);
      if i.slots != core.slots || i.recordAt != Some(core.recordAt) then a
      else if i.state != READY_TO_APPEND || a.intent != Some(IntentOpen) || a.record.Some? then a
      else Put(a, o, i.(state := RECORD_APPENDED)).(record := Some(Record(core, None)))
  }

  predicate InRecordState(a: Attempt, o: nat) {
    && IsLatest(a, o) && At(a, o).state in {RECORD_APPENDED, CONFIRMED}
    && a.intent == Some(if At(a, o).state == CONFIRMED then IntentConfirmed else IntentOpen)
    && a.record.Some? && a.record.value.core.ordinal == o && At(a, o).recordAt == Some(a.record.value.core.recordAt)
  }

  /** Before the result is stored the record effect may be executed again; afterwards only its pointer is repaired. */
  function NextRecordStep(a: Attempt, o: nat): Result {
    if !InRecordState(a, o) then Refuse(a)
    else
      var i := At(a, o);
      var rec := a.record.value;
      if i.state == RECORD_APPENDED then Result(a, {RecordGrant(rec.core)})
      else if i.recordResult.None? || !ParsesRecord(i.recordResult.value, rec.core) then Refuse(a)
      else if rec.worm.Some? then Refuse(a)
      else Refuse(a.(record := Some(rec.(worm := Some(i.recordResult.value.worm)))))
  }

  function ConfirmRecordStep(a: Attempt, o: nat, r: RecordResult): Attempt {
    if !InRecordState(a, o) || !ParsesRecord(r, a.record.value.core) then a
    else
      var i := At(a, o);
      var rec := a.record.value;
      if i.state == CONFIRMED then
        if i.recordResult == Some(r) && rec.worm.None? then a.(record := Some(rec.(worm := Some(r.worm)))) else a
      else if rec.worm.Some? && rec.worm != Some(r.worm) then a
      else Put(a, o, i.(recordResult := Some(r), state := CONFIRMED))
             .(record := Some(rec.(worm := Some(r.worm))), intent := Some(IntentConfirmed))
  }

  // ---- runs -----------------------------------------------------------------------------------

  datatype Op =
    | Reserve(now: int)
    | Reissue(seen: nat, now: int)
    | Gate(o: nat, now: int, observed: int)
    | PrepareRead(o: nat, k: nat, request: Name, now: int, inner: int)
    | FreezeRead(o: nat, k: nat, payload: Name, observed: int, now: int, inner: int)
    | Delegate(o: nat, k: nat, committed: int, pins: DirectPins, now: int)
    | DelegateBatch(o: nat, batch: BatchRequest, now: int)
    | DelegateAll(o: nat, batch: BatchRequest, now: int)
    | ConfirmDirect(o: nat, k: nat, result: SlotResult)
    | ConfirmBatch(o: nat, result: SlotResult)
    | Ready(o: nat)
    | Append(o: nat, core: Core)
    | NextRecord(o: nat)
    | ConfirmRecord(o: nat, recordResult: RecordResult)

  ghost function Apply(a: Attempt, op: Op): Result {
    match op
    case Reserve(now) => Refuse(ReserveStep(a, now))
    case Reissue(seen, now) => Refuse(ReissueStep(a, seen, now))
    case Gate(o, now, observed) => Refuse(GateStep(a, o, now, observed))
    case PrepareRead(o, k, request, now, inner) => PrepareReadStep(a, o, k, request, now, inner)
    case FreezeRead(o, k, payload, observed, now, inner) => Refuse(FreezeReadStep(a, o, k, payload, observed, now, inner))
    case Delegate(o, k, committed, pins, now) => DelegateStep(a, o, k, committed, pins, now)
    case DelegateBatch(o, r, now) => DelegateBatchStep(a, o, r, now)
    case DelegateAll(o, r, now) => DelegateAllStep(a, o, r, now)
    case ConfirmDirect(o, k, r) => Refuse(ConfirmDirectStep(a, o, k, r))
    case ConfirmBatch(o, r) => Refuse(ConfirmBatchStep(a, o, r))
    case Ready(o) => Refuse(ReadyStep(a, o))
    case Append(o, core) => Refuse(AppendStep(a, o, core))
    case NextRecord(o) => NextRecordStep(a, o)
    case ConfirmRecord(o, r) => Refuse(ConfirmRecordStep(a, o, r))
  }

  /** A run of several callers with crashes is any sequence of steps; the grants of all of them add up. */
  ghost function Run(a: Attempt, ops: seq<Op>): Result
    decreases |ops|
  {
    if ops == [] then Refuse(a)
    else
      var first := Apply(a, ops[0]);
      var rest := Run(first.attempt, ops[1..]);
      Result(rest.attempt, first.grants + rest.grants)
  }
}
