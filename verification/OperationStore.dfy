/**
 * The operation journal as an object that changes in place, and the restartable runner that drives it.
 * Two ghost sets record the calls to the outside: those the journal has granted and those that were made.
 */
module OperationStore {
  import opened Foundation
  import opened Clock
  import opened OperationTypes
  import opened OperationSteps
  import opened OperationInvariant
  import opened OperationRuns
  import opened OperationOutcomes

  class OperationJournal {
    const sequence: nat
    var intent: Option<IntentState>
    var issuances: seq<Issuance>
    var record: Option<Record>
    ghost var granted: set<Grant>
    ghost var made: set<Grant>

    constructor (sequence: nat)
      requires sequence <= 1
      ensures Contents() == NewAttempt(sequence) && granted == {} && made == {} && Valid()
    {
      this.sequence := sequence;
      intent, issuances, record, granted, made := None, [], None, {}, {};
      new;
      NewAttemptInv(sequence);
    }

    function Contents(): Attempt
      reads this
    {
      Attempt(sequence, intent, issuances, record)
    }

    /** The invariant; only granted calls were ever made, and what each of them carries is still stored. */
    ghost predicate Valid()
      reads this
    {
      && Inv(Contents())
      && made <= granted
      && forall g :: g in granted ==> Durable(Contents(), g)
    }

    /** Everything a caller may rely on across a wait. */
    twostate predicate Moved()
      reads this
    {
      Evolves(old(Contents()), Contents()) && old(granted) <= granted && old(made) <= made
    }

    /** The caller waits; other callers, or an earlier life of this one, may take any steps meanwhile. */
    method Await()
      requires Valid()
      modifies this
      ensures Valid() && Moved()
    {
      EvolvesReflexive(Contents());
    }

    method ClockNow() returns (ms: int) {
      ms := *;
    }

    /** One step is taken: its result is stored and its grants are remembered. */
    method Store(ghost op: Op, result: Attempt, ghost grants: set<Grant>)
      requires Valid() && Apply(Contents(), op) == Result(result, grants)
      modifies this
      ensures Valid() && Moved()
      ensures Contents() == Apply(old(Contents()), op).attempt
      ensures granted == old(granted) + Apply(old(Contents()), op).grants && made == old(made)
    {
      ApplyKeeps(Contents(), op);
      ApplyEvolves(Contents(), op);
      forall g | g in granted + grants ensures Durable(result, g) {
        if g in granted {
          DurableStays(Contents(), result, g);
        } else {
          ApplyDurable(Contents(), op, g);
        }
      }
      StepShape(Contents(), op);
      intent, issuances, record := result.intent, result.issuances, result.record;
      granted := granted + grants;
    }

    /** A call goes out. */
    ghost method Call(call: Grant)
      requires Valid() && call in granted
      modifies this`made
      ensures Valid() && made == old(made) + {call}
    {
      made := made + {call};
    }

    lemma StepShape(a: Attempt, op: Op)
      requires Inv(a)
      ensures Apply(a, op).attempt.sequence == a.sequence
    {
      ApplyEvolves(a, op);
    }

    // ---- issuances ------------------------------------------------------------------------------

    /** One PREPARED row for every slot of the sequence. */
    method InsertRoster() returns (slots: seq<Slot>)
      ensures slots == EmptyRoster(sequence)
    {
      slots := [];
      var kinds := Roster(sequence);
      for k := 0 to |kinds|
        invariant |slots| == k
        invariant forall j :: 0 <= j < k ==> slots[j] == EmptySlot(kinds[j])
      {
        slots := slots + [EmptySlot(kinds[k])];
      }
    }

    method ReserveIssuance(now: int)
      requires Valid()
      modifies this
      ensures Valid() && Moved() && Contents() == ReserveStep(old(Contents()), now)
    {
      var result := Contents();
      if IsDate(now) && IsDate(now + FRESHNESS_MS) && issuances == [] {
        var slots := InsertRoster();
        result := result.(issuances := [Issuance(now, now + FRESHNESS_MS, RESERVED, None, None, slots)]);
        if result.intent.None? {
          result := result.(intent := Some(IntentOpen));
        }
      }
      Store(Reserve(now), result, {});
    }

    /** The state after the wait is judged again; a newer ordinal is left as it is. */
    method ReissueTransaction(seen: nat, now: int)
      requires Valid()
      modifies this
      ensures Valid() && Moved() && Contents() == ReissueStep(old(Contents()), seen, now)
    {
      var result := Contents();
      if intent.Some? && |issuances| == seen && seen > 0 && IsDate(now) && IsDate(now + FRESHNESS_MS)
         && seen + 1 <= MAX_ORDINAL {
        var stale := issuances[seen - 1];
        if now > stale.freshUntil && Reissuable(stale) {
          var slots := InsertRoster();
          result := result.(issuances := issuances[seen - 1 := stale.(state := EXPIRED_UNDISPATCHED)]
                                         + [Issuance(now, now + FRESHNESS_MS, RESERVED, None, None, slots)]);
        }
      }
      Store(Reissue(seen, now), result, {});
    }

    /** The ordinal read first is checked again after the wait for the new identity. */
    method ReissueStale(now: int)
      requires Valid()
      modifies this
      ensures Valid() && Moved()
    {
      var seen := |issuances|;
      ghost var a := Contents();
      Await();
      ghost var b := Contents();
      ReissueTransaction(seen, now);
      EvolvesTransitive(a, b, Contents());
    }

    // ---- evidence -------------------------------------------------------------------------------

    /** A failed gate outside a transaction leaves its expiry behind; inside one it leaves nothing. */
    method PrepareSlot(o: nat, k: nat, request: Name, now: int, inner: int) returns (callProvider: bool)
      requires Valid()
      modifies this
      ensures Valid() && Moved() && Contents() == PrepareReadStep(old(Contents()), o, k, request, now, inner).attempt
      ensures callProvider <==> ReadGrant(o, k, request) in PrepareReadStep(old(Contents()), o, k, request, now, inner).grants
      ensures callProvider ==> ReadGrant(o, k, request) in granted
    {
      callProvider := false;
      var result := Contents();
      if !Passes(Contents(), o, now, now) {
        if Collectable(Contents(), o) {
          result := Put(result, o, Expire(At(result, o)));
        }
      } else if Passes(Contents(), o, inner, inner) && k < |At(Contents(), o).slots| {
        var i := At(Contents(), o);
        var s := i.slots[k];
        if s.kind != CloudflareBatch && s.state == ReadInFlight {
          callProvider := s.request == Some(request);
        } else if s.kind != CloudflareBatch && s.state == SlotPrepared {
          i := PutSlot(i, k, s.(request := Some(request), state := ReadInFlight));
          if i.state == RESERVED {
            i := i.(state := COLLECTING);
          }
          result := Put(result, o, i);
          callProvider := true;
        }
      }
      Store(PrepareRead(o, k, request, now, inner), result, if callProvider then {ReadGrant(o, k, request)} else {});
    }

    method FreezeSlot(o: nat, k: nat, payload: Name, observed: int, now: int, inner: int)
      requires Valid()
      modifies this
      ensures Valid() && Moved()
      ensures Contents() == FreezeReadStep(old(Contents()), o, k, payload, observed, now, inner)
    {
      var result := Contents();
      if !Passes(Contents(), o, now, observed) {
        if Collectable(Contents(), o) {
          result := Put(result, o, Expire(At(result, o)));
        }
      } else if Passes(Contents(), o, inner, observed) && k < |At(Contents(), o).slots| {
        var i := At(Contents(), o);
        var s := i.slots[k];
        if s.kind != CloudflareBatch && s.state == ReadInFlight {
          s := s.(payload := Some(payload), observedAt := Some(observed), state := SlotFrozen);
          result := Put(result, o, PutSlot(i, k, s));
        }
      }
      Store(FreezeRead(o, k, payload, observed, now, inner), result, {});
    }

    /** The loop over the anchors fills two sets; the third, of object keys, follows from the records. */
    method ValidateAnchors(anchors: seq<Anchor>, sealedAt: int) returns (ok: bool)
      ensures ok <==> AnchorsOk(anchors, sealedAt)
    {
      if |anchors| != ANCHORS {
        return false;
      }
      var records: set<Name> := {};
      var versions: set<Name> := {};
      for k := 0 to |anchors|
        invariant records == set j | 0 <= j < k :: anchors[j].recordId
        invariant versions == set j | 0 <= j < k :: anchors[j].version
        invariant forall j :: 0 <= j < k ==> AnchorOk(anchors, j, sealedAt)
        invariant forall i, j :: 0 <= i < j < k ==>
                    anchors[i].recordId != anchors[j].recordId && anchors[i].version != anchors[j].version
      {
        if !AnchorOk(anchors, k, sealedAt) {
          return false;
        }
        if anchors[k].recordId in records || anchors[k].version in versions {
          return false;
        }
        records := records + {anchors[k].recordId};
        versions := versions + {anchors[k].version};
      }
      ok := true;
    }

    /** The three direct rows in their order, then the batch row. */
    method SealRows(slots: seq<Slot>, r: BatchRequest) returns (sealed: seq<Slot>)
      requires PayloadsRead(slots)
      ensures sealed == SealFour(slots, r)
    {
      sealed := slots;
      for k := 1 to 4
        invariant |sealed| == 5 && sealed[0] == slots[0] && sealed[4] == slots[4]
        invariant forall j :: 1 <= j < k ==> sealed[j] == SealDirect(slots[j], EffectFor(slots, j, r))
        invariant forall j :: k <= j <= 3 ==> sealed[j] == slots[j]
      {
        sealed := sealed[k := SealDirect(sealed[k], EffectFor(slots, k, r))];
      }
      sealed := sealed[4 := SealBatch(sealed[4], r)];
    }

    predicate NotFrozen(slots: seq<Slot>) {
      |slots| == 5 && exists k :: 1 <= k <= 3 && slots[k].state != SlotFrozen
    }

    /** The checks between the second read of the rows and the transaction, none of them with a wait between. */
    method CanSeal(o: nat, r: BatchRequest, now: int) returns (ok: bool)
      requires IsLatest(Contents(), o) && PayloadsRead(At(Contents(), o).slots)
      ensures ok <==>
                var i := At(Contents(), o);
                && i.slots[0].observedAt.Some? && i.slots[0].observedAt.value <= r.committedAt
                && (forall k :: 1 <= k <= 3 ==> Chronological(i, i.slots[k], r.committedAt, now))
                && (forall k :: 1 <= k <= 3 ==> !KeyTaken(Contents(), EffectFor(i.slots, k, r), o, k))
                && !SameKey(EffectFor(i.slots, 1, r), EffectFor(i.slots, 2, r))
    {
      var i := At(Contents(), o);
      if i.slots[0].observedAt.None? || i.slots[0].observedAt.value > r.committedAt {
        return false;
      }
      ok := !SameKey(EffectFor(i.slots, 1, r), EffectFor(i.slots, 2, r));
      for k := 1 to 4
        invariant ok <==>
                    && !SameKey(EffectFor(i.slots, 1, r), EffectFor(i.slots, 2, r))
                    && forall j :: 1 <= j < k ==> Chronological(i, i.slots[j], r.committedAt, now)
                                                  && !KeyTaken(Contents(), EffectFor(i.slots, j, r), o, j)
      {
        ok := ok && Chronological(i, i.slots[k], r.committedAt, now) && !KeyTaken(Contents(), EffectFor(i.slots, k, r), o, k);
      }
    }

    /** The rows to be written and the calls to be granted; nothing is written yet. */
    method PlanEffects(o: nat, r: BatchRequest, now: int) returns (result: Attempt, calls: set<Grant>)
      ensures Result(result, calls) == DelegateAllStep(Contents(), o, r, now)
    {
      hide KeyTaken, Chronological, ParsesBatch, SealMatches, OpenCalls, EffectFor, AllDispatched;
      result, calls := Contents(), {};
      if Current(Contents(), o, true) && ParsesBatch(r, o, At(Contents(), o)) && PayloadsRead(At(Contents(), o).slots) {
        var i := At(Contents(), o);
        if AllDispatched(i.slots) {
          if SealMatches(i.slots, r) {
            calls := OpenCalls(o, i.slots, r);
          }
        } else if i.state != DISPATCHED_HOLD && i.slots[4].state == SlotPrepared && !NotFrozen(i.slots) {
          if now > i.freshUntil || r.committedAt > i.freshUntil {
            result := Put(result, o, Expire(i));
          } else {
            var ok := CanSeal(o, r, now);
            if ok {
              var sealed := SealRows(i.slots, r);
              i := i.(slots := sealed);
              if i.state == RESERVED || i.state == COLLECTING {
                i := i.(state := EFFECTS_PENDING);
              }
              result := Put(result, o, i);
              calls := OpenCalls(o, sealed, r);
            }
          }
        }
      }
    }

    /** All four effects of A0 in one transaction; the same request again finds the calls that are still open. */
    method DelegateEffects(o: nat, r: BatchRequest, now: int) returns (calls: set<Grant>)
      requires Valid()
      modifies this
      ensures Valid() && Moved() && Contents() == DelegateAllStep(old(Contents()), o, r, now).attempt
      ensures calls == DelegateAllStep(old(Contents()), o, r, now).grants && calls <= granted
      ensures Delegates(old(Contents()), o, r, now, Contents(), calls)
    {
      hide Inv, Durable, Evolves, Delegates, DelegateAllStep;
      DelegateAllDecided(Contents(), o, r, now);
      var result: Attempt;
      result, calls := PlanEffects(o, r, now);
      Store(DelegateAll(o, r, now), result, calls);
    }

    /** The batch by itself, the only delegation of an A1 attempt. */
    method DelegateCloudflare(o: nat, r: BatchRequest, now: int) returns (calls: set<Grant>)
      requires Valid()
      modifies this
      ensures Valid() && Moved() && Contents() == DelegateBatchStep(old(Contents()), o, r, now).attempt
      ensures calls == DelegateBatchStep(old(Contents()), o, r, now).grants && calls <= granted
    {
      hide Inv, Durable, Predecessors, ParsesBatch, Chronological;
      calls := {};
      var result := Contents();
      var k := BatchSlot(sequence);
      if Current(result, o, true) && ParsesBatch(r, o, At(result, o)) && k < |At(result, o).slots| {
        var i := At(result, o);
        var s := i.slots[k];
        if IsDispatched(s) {
          if s.batch == Some(r) && s.state == Delegated {
            calls := {BatchGrant(o, r)};
          }
        } else if i.state != DISPATCHED_HOLD && s.state == SlotPrepared && Predecessors(result, i.slots, r.committedAt) {
          if now > i.freshUntil || r.committedAt > i.freshUntil {
            result := Put(result, o, Expire(i));
          } else if Chronological(i, s, r.committedAt, now) {
            i := PutSlot(i, k, s.(batch := Some(r), committedAt := Some(r.committedAt), state := Delegated));
            if i.state == RESERVED || i.state == COLLECTING {
              i := i.(state := EFFECTS_PENDING);
            }
            result := Put(result, o, i);
            calls := {BatchGrant(o, r)};
          }
        }
      }
      Store(DelegateBatch(o, r, now), result, calls);
    }

    method ConfirmSlot(o: nat, k: nat, r: SlotResult)
      requires Valid()
      modifies this
      ensures Valid() && Moved() && Contents() == ConfirmDirectStep(old(Contents()), o, k, r)
    {
      var result := Contents();
      if Current(Contents(), o, true) && k < |At(Contents(), o).slots| {
        var i := At(Contents(), o);
        var s := i.slots[k];
        if s.kind == DirectWorm && s.effect.Some? && ParsesDirect(r, s.effect.value) && s.state == Delegated
           && !VersionTaken(i.slots, r.version, k) {
          result := Put(result, o, PutSlot(i, k, s.(result := Some(r), state := SlotConfirmed)));
        }
      }
      Store(ConfirmDirect(o, k, r), result, {});
    }

    method ConfirmCloudflare(o: nat, r: SlotResult)
      requires Valid()
      modifies this
      ensures Valid() && Moved() && Contents() == ConfirmBatchStep(old(Contents()), o, r)
    {
      var result := Contents();
      if r.BatchResult? {
        var ok := ValidateAnchors(r.anchors, r.sealedAt);
        if ok && Current(Contents(), o, true) && BatchSlot(sequence) < |At(Contents(), o).slots| {
          var i := At(Contents(), o);
          var s := i.slots[BatchSlot(sequence)];
          var agrees := i.recordAt.None? || i.recordAt.value == r.sealedAt;
          if agrees && s.batch == Some(r.batch) && s.state == Delegated {
            i := PutSlot(i, BatchSlot(sequence), s.(result := Some(r), state := SlotConfirmed));
            result := Put(result, o, i.(recordAt := Some(r.sealedAt)));
          }
        }
      }
      Store(ConfirmBatch(o, r), result, {});
    }

    method ReadyToAppend(o: nat) returns (ready: bool)
      requires Valid()
      modifies this
      ensures Valid() && Moved() && Contents() == ReadyStep(old(Contents()), o)
      ensures ready <==> Current(old(Contents()), o, true) && RecordReady(sequence, At(old(Contents()), o))
    {
      ready := Current(Contents(), o, true) && RecordReady(sequence, At(Contents(), o));
      var result := Contents();
      if ready {
        var i := At(Contents(), o);
        if i.state == COLLECTING || i.state == EFFECTS_PENDING || i.state == DISPATCHED_HOLD {
          i := i.(state := READY_TO_APPEND);
        }
        result := Put(result, o, i);
      }
      Store(Ready(o), result, {});
    }

    // ---- record ---------------------------------------------------------------------------------

    /** The rows are read again; a record is inserted only if they are those the record was built from. */
    method AppendTransaction(o: nat, core: Core)
      requires Valid()
      modifies this
      ensures Valid() && Moved() && Contents() == AppendStep(old(Contents()), o, core)
      ensures record != old(record) ==>
                && old(record).None? && record == Some(Record(core, None)) && IsLatest(old(Contents()), o)
                && core == Core(o, old(At(Contents(), o).slots), core.recordAt)
                && old(At(Contents(), o).recordAt) == Some(core.recordAt)
    {
      var result := Contents();
      var present := record.Some? && record.value.core.ordinal == o;
      if !present && IsLatest(result, o) && core.ordinal == o && RosterDone(sequence, core.slots) {
        var i := At(result, o);
        var same := i.slots == core.slots && i.recordAt == Some(core.recordAt);
        if same && i.state == READY_TO_APPEND && intent == Some(IntentOpen) && record.None? {
          result := Put(result, o, i.(state := RECORD_APPENDED)).(record := Some(Record(core, None)));
        }
      }
      Store(Append(o, core), result, {});
    }

    /** Success means there is a record of this issuance, built from the rows as they are stored now. */
    method FreezeAndAppend(o: nat) returns (ok: bool)
      requires Valid()
      modifies this
      ensures Valid() && Moved()
      ensures ok ==> && record.Some? && IsLatest(Contents(), o) && At(Contents(), o).recordAt.Some?
                     && record.value.core == Core(o, At(Contents(), o).slots, At(Contents(), o).recordAt.value)
    {
      EvolvesReflexive(Contents());
      InvRecordMatches(Contents());
      ok := record.Some? && record.value.core.ordinal == o;
      if ok || !IsLatest(Contents(), o) || At(Contents(), o).state != READY_TO_APPEND || At(Contents(), o).recordAt.None? {
        return;
      }
      var core := Core(o, At(Contents(), o).slots, At(Contents(), o).recordAt.value);
      ghost var a := Contents();
      Await();
      ghost var b := Contents();
      AppendTransaction(o, core);
      EvolvesTransitive(a, b, Contents());
      InvRecordMatches(Contents());
      ok := record.Some? && record.value.core.ordinal == o;
    }

    /**
     * The call stays open exactly until its result is stored. From then on the pointer is written from that
     * result if it is missing, which it never is, because both were stored together.
     */
    method NextRecordWorm(o: nat) returns (calls: set<Grant>)
      requires Valid()
      modifies this
      ensures Valid() && Moved() && Contents() == NextRecordStep(old(Contents()), o).attempt
      ensures calls == NextRecordStep(old(Contents()), o).grants && calls <= granted
      ensures calls == if InRecordState(old(Contents()), o) && old(At(Contents(), o).state) == RECORD_APPENDED
                       then {RecordGrant(old(record.value.core))} else {}
      ensures Contents() == old(Contents())
    {
      hide Inv, Durable;
      calls := {};
      var result := Contents();
      if InRecordState(result, o) {
        var i := At(result, o);
        var rec := record.value;
        if i.state == RECORD_APPENDED {
          calls := {RecordGrant(rec.core)};
        } else if i.recordResult.Some? && ParsesRecord(i.recordResult.value, rec.core) && rec.worm.None? {
          result := result.(record := Some(rec.(worm := Some(i.recordResult.value.worm))));
        }
      }
      NextRecordKeeps(Contents(), o);
      Store(NextRecord(o), result, calls);
    }

    method ConfirmRecordWorm(o: nat, r: RecordResult) returns (ok: bool)
      requires Valid()
      modifies this
      ensures Valid() && Moved() && Contents() == ConfirmRecordStep(old(Contents()), o, r)
      ensures ok ==> intent == Some(IntentConfirmed) && record.Some? && record.value.worm.Some?
    {
      var result := Contents();
      if InRecordState(Contents(), o) && ParsesRecord(r, record.value.core) {
        var i := At(Contents(), o);
        var confirmed := record.value.(worm := Some(r.worm));
        var pointerFree := record.value.worm.None?;
        var samePointer := record.value.worm == Some(r.worm);
        if i.state == CONFIRMED {
          if i.recordResult == Some(r) && pointerFree {
            result := result.(record := Some(confirmed));
          }
        } else if pointerFree || samePointer {
          i := i.(recordResult := Some(r), state := CONFIRMED);
          result := Put(result, o, i).(record := Some(confirmed), intent := Some(IntentConfirmed));
        }
      }
      Store(ConfirmRecord(o, r), result, {});
      InvRecordMatches(Contents());
      ok := intent == Some(IntentConfirmed) && record.Some?;
    }

    // ---- runner ---------------------------------------------------------------------------------

    method CurrentIssuance(now: int) returns (o: nat)
      requires Valid()
      modifies this
      ensures Valid() && Moved()
      ensures o <= |issuances|
    {
      ghost var a := Contents();
      ReserveIssuance(now);
      ghost var b := Contents();
      o := |issuances|;
      if o > 0 && now > issuances[o - 1].freshUntil
         && issuances[o - 1].state in {RESERVED, COLLECTING, EXPIRED_UNDISPATCHED} {
        ReissueStale(now);
        EvolvesTransitive(a, b, Contents());
        o := |issuances|;
      }
    }

    /** Reads not yet frozen are prepared, made, and frozen; a crash before freezing repeats the same read. */
    method CollectReads(o: nat, plan: seq<Name>)
      requires Valid() && |plan| == 4
      modifies this
      ensures Valid() && Moved()
    {
      ghost var a := Contents();
      EvolvesReflexive(a);
      for k := 0 to 4
        invariant Valid() && Evolves(a, Contents()) && old(granted) <= granted && old(made) <= made
      {
        ghost var b := Contents();
        var now := ClockNow();
        var inner := ClockNow();
        var call := PrepareSlot(o, k, plan[k], now, inner);
        EvolvesTransitive(a, b, Contents());
        if call {
          Call(ReadGrant(o, k, plan[k]));
          ghost var c := Contents();
          Await();
          EvolvesTransitive(a, c, Contents());
          ghost var d := Contents();
          var payload: nat := *;
          var observed: int := *;
          now := ClockNow();
          inner := ClockNow();
          FreezeSlot(o, k, payload, observed, now, inner);
          EvolvesTransitive(a, d, Contents());
        }
      }
    }

    /** Each open call is made, none but these is made here, and each answer is imported. */
    method ExecuteEffects(o: nat, calls: set<Grant>) returns (ghost own: set<Grant>)
      requires Valid() && calls <= granted
      modifies this
      ensures Valid() && Moved()
      ensures own == calls && own <= made
    {
      hide Inv, Durable, Evolves, ConfirmDirectStep, ConfirmBatchStep;
      ghost var a := Contents();
      EvolvesReflexive(a);
      var rest := calls;
      own := {};
      while rest != {}
        invariant Valid() && Evolves(a, Contents()) && old(granted) <= granted && old(made) <= made
        invariant own + rest == calls && own <= made
        decreases |rest|
      {
        var call :| call in rest;
        rest := rest - {call};
        own := own + {call};
        Call(call);
        ghost var b := Contents();
        Await();
        ghost var c := Contents();
        EvolvesTransitive(a, b, c);
        var answer: SlotResult := *;
        if call.EffectGrant? {
          ConfirmSlot(o, call.slot, answer);
          EvolvesTransitive(a, c, Contents());
        } else if call.BatchGrant? {
          ConfirmCloudflare(o, answer);
          EvolvesTransitive(a, c, Contents());
        }
      }
    }

    /** The stored request of the batch, or a new one committed now. */
    method CloudflareRequest(o: nat, pins: BatchPins, body: Name) returns (r: BatchRequest)
      requires IsLatest(Contents(), o) && BatchSlot(sequence) < |At(Contents(), o).slots|
      ensures At(Contents(), o).slots[BatchSlot(sequence)].batch.Some? ==>
                Some(r) == At(Contents(), o).slots[BatchSlot(sequence)].batch
      ensures r.ordinal == o || At(Contents(), o).slots[BatchSlot(sequence)].batch.Some?
    {
      var i := At(Contents(), o);
      var stored := i.slots[BatchSlot(sequence)].batch;
      var committed := ClockNow();
      r := if stored.Some? then stored.value
           else BatchRequest(o, i.issuedAt, i.freshUntil, committed, committed, pins, body);
    }

    /** A0 delegates its four effects together, A1 its batch; then the open calls are made. */
    method DelegateAndExecute(o: nat, pins: BatchPins, body: Name)
      requires Valid()
      modifies this
      ensures Valid() && Moved()
    {
      hide Inv, Durable;
      ghost var a := Contents();
      EvolvesReflexive(a);
      if !IsLatest(Contents(), o) || BatchSlot(sequence) >= |At(Contents(), o).slots| {
        return;
      }
      var r := CloudflareRequest(o, pins, body);
      Await();
      ghost var b := Contents();
      var now := ClockNow();
      var calls: set<Grant>;
      if sequence == 0 {
        calls := DelegateEffects(o, r, now);
      } else {
        calls := DelegateCloudflare(o, r, now);
      }
      EvolvesTransitive(a, b, Contents());
      ghost var c := Contents();
      ghost var own := ExecuteEffects(o, calls);
      EvolvesTransitive(a, c, Contents());
    }

    method FinishRecord(o: nat) returns (done: bool)
      requires Valid()
      modifies this
      ensures Valid() && Moved()
      ensures done ==> intent == Some(IntentConfirmed) && record.Some? && record.value.worm.Some?
    {
      ghost var a := Contents();
      done := FreezeAndAppend(o);
      if !done {
        return;
      }
      ghost var b := Contents();
      var calls := NextRecordWorm(o);
      EvolvesTransitive(a, b, Contents());
      ghost var c := Contents();
      if calls == {} {
        InvRecordMatches(Contents());
        return intent == Some(IntentConfirmed) && record.Some?;
      }
      Call(RecordGrant(record.value.core));
      Await();
      EvolvesTransitive(a, c, Contents());
      ghost var d := Contents();
      var answer: RecordResult := *;
      done := ConfirmRecordWorm(o, answer);
      EvolvesTransitive(a, d, Contents());
    }

    /**
     * One run: it may stop anywhere, and running it again continues where the journal stands. A1 starts only
     * when the record of A0, which belongs to another attempt, is confirmed.
     */
    method RunOperation(plan: seq<Name>, provisioned: bool, pins: BatchPins, body: Name) returns (done: bool)
      requires Valid() && (sequence == 0 ==> |plan| == 4)
      modifies this
      ensures Valid() && Moved()
      ensures done ==> intent == Some(IntentConfirmed) && record.Some? && record.value.worm.Some?
      ensures sequence == 1 && !provisioned ==> !done && Contents() == old(Contents()) && made == old(made)
    {
      hide Inv, Durable;
      ghost var a := Contents();
      EvolvesReflexive(a);
      if sequence == 1 && !provisioned {
        return false;
      }
      var now := ClockNow();
      var o := CurrentIssuance(now);
      if o == 0 {
        return false;
      }
      if !Final(issuances[o - 1].state) {
        if sequence == 0 {
          ghost var b := Contents();
          CollectReads(o, plan);
          EvolvesTransitive(a, b, Contents());
        }
        ghost var c := Contents();
        DelegateAndExecute(o, pins, body);
        EvolvesTransitive(a, c, Contents());
        ghost var d := Contents();
        var ready := ReadyToAppend(o);
        EvolvesTransitive(a, d, Contents());
        if !ready {
          return false;
        }
      }
      ghost var e := Contents();
      done := FinishRecord(o);
      EvolvesTransitive(a, e, Contents());
    }
  }
}
